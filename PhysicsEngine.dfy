/** PhysicsEngine: the control centre that routes physics objects between its queues and, once per
    frame of its frame thread, creates the pending ones in the world and steps it.

    The queues (`ConcurrentLinkedQueue`, `CopyOnWriteArrayList`) are sequences under sequential
    execution: the frame callback and the caller's thread are not interleaved. */
module Engine {
  import opened JavaLang
  import opened Vecs
  import opened Backend
  import opened ShapeObjects
  import opened Objects
  import opened Frames

  /** `velocityInteractions` and `positionInteractions`: set once, never changed. */
  const VelocityIterations: int := 6
  const PositionIterations: int := 6

  /** The world's gravity, Earth's, pointing down the screen. */
  const Gravity: Vec2 := Vec2(0.0, 9.8)

  // ---------------------------------------------------------------------------------------------
  // The victims list.

  /** `List.remove(o)`: drops the first occurrence of `x`, if any. */
  function RemoveFirst(vs: seq<PhysicsObject>, x: PhysicsObject): seq<PhysicsObject>
  {
    if vs == [] then []
    else if vs[0] == x then vs[1..]
    else [vs[0]] + RemoveFirst(vs[1..], x)
  }

  /** Without `x` the list is unchanged. */
  lemma {:induction false} RemoveFirstAbsent(vs: seq<PhysicsObject>, x: PhysicsObject)
    requires x !in vs
    ensures RemoveFirst(vs, x) == vs
  {
    if vs != [] {
      assert x !in vs[1..];
      RemoveFirstAbsent(vs[1..], x);
      assert vs == [vs[0]] + vs[1..];
    }
  }

  /** With `x` first at index i, exactly that occurrence is cut out. */
  lemma {:induction false} RemoveFirstAt(vs: seq<PhysicsObject>, x: PhysicsObject, i: nat)
    requires i < |vs| && vs[i] == x && x !in vs[..i]
    ensures RemoveFirst(vs, x) == vs[..i] + vs[i + 1..]
  {
    if i > 0 {
      assert vs[0] in vs[..i];
      var tail := vs[1..];
      assert tail[..i - 1] == vs[1..i];
      assert x !in tail[..i - 1];
      RemoveFirstAt(tail, x, i - 1);
      assert tail[i..] == vs[i + 1..];
      assert vs[..i] == [vs[0]] + vs[1..i];
      AppendAssociative([vs[0]], vs[1..i], vs[i + 1..]);
    }
  }

  /** Removing an object takes out exactly one copy of it when there is one. */
  lemma {:induction false} RemoveFirstCount(vs: seq<PhysicsObject>, x: PhysicsObject)
    ensures multiset(RemoveFirst(vs, x)) == multiset(vs) - multiset{x}
  {
    if vs != [] {
      assert vs == [vs[0]] + vs[1..];
      if vs[0] != x {
        RemoveFirstCount(vs[1..], x);
      }
    }
  }

  /** The victims list after `remove` has been called for each of `os`, in order. */
  function RemoveEach(vs: seq<PhysicsObject>, os: seq<PhysicsObject>): (r: seq<PhysicsObject>)
  {
    if os == [] then vs else RemoveFirst(RemoveEach(vs, os[..|os| - 1]), os[|os| - 1])
  }

  /** Removing one more object of a list. */
  lemma RemoveEachStep(vs: seq<PhysicsObject>, os: seq<PhysicsObject>, k: nat)
    requires k < |os|
    ensures RemoveEach(vs, os[..k + 1]) == RemoveFirst(RemoveEach(vs, os[..k]), os[k])
  {
    assert os[..k + 1][..k] == os[..k];
  }

  /** Removing a run of objects takes out one copy of each, as far as there are copies. */
  lemma {:induction false} RemoveEachCount(vs: seq<PhysicsObject>, os: seq<PhysicsObject>)
    ensures multiset(RemoveEach(vs, os)) == multiset(vs) - multiset(os)
  {
    if os != [] {
      var front, last := os[..|os| - 1], os[|os| - 1];
      RemoveEachCount(vs, front);
      RemoveFirstCount(RemoveEach(vs, front), last);
      MultisetSnoc(os);
      SubtractTwice(multiset(vs), multiset(front), multiset{last});
    }
  }

  lemma MultisetSnoc<T>(s: seq<T>)
    requires s != []
    ensures multiset(s) == multiset(s[..|s| - 1]) + multiset{s[|s| - 1]}
  {
    assert s == s[..|s| - 1] + [s[|s| - 1]];
  }

  lemma SubtractTwice<T>(a: multiset<T>, b: multiset<T>, c: multiset<T>)
    ensures a - b - c == a - (b + c)
  {
  }

  // ---------------------------------------------------------------------------------------------
  // Lemmas on the bodies created for a queue of objects.

  /** Two sequences of states that differ at most in their bodies create the same bodies. */
  lemma SameRecords(L: seq<ShapeObject>, ss: seq<ShapeState>)
    requires |L| == |ss|
    requires forall j :: 0 <= j < |L| ==> L[j].State() == ss[j].(body := L[j].body)
    ensures CreationRecords(States(L)) == CreationRecords(ss)
  {
    forall j | 0 <= j < |L|
      ensures CreationRecords(States(L))[j] == CreationRecords(ss)[j]
    {
      assert States(L)[j] == ss[j].(body := L[j].body);
    }
  }

  /** The segment of the queue's shape objects that belongs to object k. */
  lemma QueueSegment(q: seq<PhysicsObject>, k: nat)
    requires k < |q|
    ensures |Flatten(q[..k])| + |q[k].LeafSeq()| <= |Flatten(q)|
    ensures Flatten(q)[|Flatten(q[..k])|..|Flatten(q[..k])| + |q[k].LeafSeq()|] == q[k].LeafSeq()
    ensures Flatten(q[..k + 1]) == Flatten(q[..k]) + q[k].LeafSeq()
    ensures Footprint(q[..k + 1]) == Footprint(q[..k]) + q[k].LeafSet()
  {
    FlattenStep(q, k);
    FlattenPrefix(q, k + 1);
    var A, B := Flatten(q[..k]), q[k].LeafSeq();
    assert Flatten(q)[..|A| + |B|] == A + B;
    assert Flatten(q)[|A|..|A| + |B|] == B;
    ElementsAppend(A, B);
  }

  /** The states of object k's shape objects are its segment of the states of the whole queue. */
  lemma HeadStates(Q: seq<PhysicsObject>, F: seq<ShapeObject>, S: seq<ShapeState>, k: nat)
    requires k < |Q| && F == Flatten(Q) && States(F) == S
    ensures |Flatten(Q[..k + 1])| == |Flatten(Q[..k])| + |Q[k].LeafSeq()| <= |F|
    ensures States(Q[k].LeafSeq()) == S[|Flatten(Q[..k])|..|Flatten(Q[..k + 1])|]
  {
    QueueSegment(Q, k);
    StatesSlice(F, |Flatten(Q[..k])|, |Flatten(Q[..k + 1])|);
  }

  /** The states of a tree's shape objects, in order, when each shape object of U has the state
      recorded in O, resolved for those in D. */
  lemma StatesNow(o: PhysicsObject, U: set<ShapeObject>, O: map<ShapeObject, ShapeState>, D: set<ShapeObject>,
                  w: int32, h: int32)
    requires o.LeafSet() <= U
    requires forall l :: l in U ==> l in O && l.State() == if l in D then O[l].Resolved(w, h) else O[l]
    ensures forall m :: 0 <= m < |o.LeafSeq()| ==>
      && o.LeafSeq()[m] in O
      && States(o.LeafSeq())[m] == if o.LeafSeq()[m] in D then O[o.LeafSeq()[m]].Resolved(w, h) else O[o.LeafSeq()[m]]
  {
    forall m | 0 <= m < |o.LeafSeq()|
      ensures o.LeafSeq()[m] in O
      ensures States(o.LeafSeq())[m] == if o.LeafSeq()[m] in D then O[o.LeafSeq()[m]].Resolved(w, h) else O[o.LeafSeq()[m]]
    {
      assert o.LeafSeq()[m] in o.LeafSet();
    }
  }

  /** The shape objects of one segment of F, which have changed at most in their bodies since
      they had the states of the same segment of S0, create the bodies S0's segment creates. */
  lemma OriginalRecords(o: PhysicsObject, F: seq<ShapeObject>, p: nat, q: nat, U: set<ShapeObject>,
                        O: map<ShapeObject, ShapeState>, S0: seq<ShapeState>)
    requires q == p + |o.LeafSeq()| <= |F| == |S0| && F[p..q] == o.LeafSeq()
    requires forall j :: 0 <= j < |F| ==> F[j] in O && S0[j] == O[F[j]]
    requires o.LeafSet() <= U
    requires forall l :: l in U ==> l in O && l.State() == O[l].(body := l.body)
    ensures CreationRecords(States(o.LeafSeq())) == CreationRecords(S0[p..q])
  {
    var L := o.LeafSeq();
    forall j | 0 <= j < |L|
      ensures L[j].State() == S0[p..p + |L|][j].(body := L[j].body)
    {
      assert L[j] == F[p + j];
      assert L[j] in o.LeafSet();
    }
    SameRecords(L, S0[p..p + |L|]);
  }

  /** The elements of a sequence, as a set. */
  ghost function Elements<T>(s: seq<T>): set<T>
  {
    set x | x in s
  }

  /** The states recorded in O for a sequence of shape objects. */
  function Recorded(L: seq<ShapeObject>, O: map<ShapeObject, ShapeState>): (r: seq<ShapeState>)
    requires forall l :: l in L ==> l in O
    ensures |r| == |L| && forall m :: 0 <= m < |L| ==> r[m] == O[L[m]]
  {
    seq(|L|, m requires 0 <= m < |L| => O[L[m]])
  }

  /** The shape objects setWorldSize has resolved when object k of the queue R, whose shape
      objects had the states S, throws: all those of the objects before it, and those of object k
      before its first one with a body. */
  ghost function ResolvedBeforeThrow(R: seq<PhysicsObject>, k: nat, S: seq<ShapeState>): set<ShapeObject>
    requires k < |R| && |S| == |R[k].LeafSeq()|
  {
    Footprint(R[..k]) + Elements(R[k].LeafSeq()[..FirstBodied(S)])
  }

  /** Resolution never changes a body, so the first shape object with a body is the same before
      and after any resolutions. */
  lemma {:induction false} FirstBodiedFromSameBodies(a: seq<ShapeState>, b: seq<ShapeState>, i: nat)
    requires |a| == |b| && i <= |a|
    requires forall j :: 0 <= j < |a| ==> a[j].body == b[j].body
    ensures FirstBodiedFrom(a, i) == FirstBodiedFrom(b, i)
    decreases |a| - i
  {
    if i < |a| && a[i].body.None? {
      FirstBodiedFromSameBodies(a, b, i + 1);
    }
  }

  /** One object's setupRelative, seen on its shape objects L (no repetitions) whose states S are
      those recorded in O, resolved for the ones in D: the result resolves the recorded state of
      those in D and of those before the first one with a body, and keeps the recorded state of
      the rest. The first body is where the recorded states have it. */
  lemma SetupLeaves(L: seq<ShapeObject>, S: seq<ShapeState>, O: map<ShapeObject, ShapeState>,
                    D: set<ShapeObject>, w: int32, h: int32)
    requires Distinct(L) && |S| == |L|
    requires forall m :: 0 <= m < |L| ==> L[m] in O && S[m] == if L[m] in D then O[L[m]].Resolved(w, h) else O[L[m]]
    ensures FirstBodied(S) == FirstBodied(Recorded(L, O))
    ensures SetupOutcome(S) == SetupOutcome(Recorded(L, O))
    ensures forall m :: 0 <= m < |L| ==>
      SetupAll(S, w, h)[m] == if L[m] in D + Elements(L[..FirstBodied(S)]) then O[L[m]].Resolved(w, h) else O[L[m]]
  {
    var R := Recorded(L, O);
    forall j | 0 <= j < |L|
      ensures S[j].body == R[j].body
    {
      ResolvedKeepsTheRest(O[L[j]], w, h);
    }
    FirstBodiedFromSameBodies(S, R, 0);
    var f := FirstBodied(S);
    forall m | 0 <= m < |L|
      ensures SetupAll(S, w, h)[m] == if L[m] in D + Elements(L[..f]) then O[L[m]].Resolved(w, h) else O[L[m]]
    {
      ResolvedIdempotent(O[L[m]], w, h, w, h);
      if m >= f {
        assert forall j :: 0 <= j < f ==> L[..f][j] == L[j] != L[m];
      } else {
        assert L[..f][m] == L[m];
      }
    }
  }

  /** Recorded states with no body before position |L| have no body anywhere. */
  lemma RecordedBodies(L: seq<ShapeObject>, O: map<ShapeObject, ShapeState>)
    requires forall l :: l in L ==> l in O
    ensures SetupOutcome(Recorded(L, O)) == Pass <==> forall l :: l in L ==> O[l].body.None?
  {
    var R := Recorded(L, O);
    if SetupOutcome(R) == Pass {
      forall l | l in L
        ensures O[l].body.None?
      {
        var m :| 0 <= m < |L| && L[m] == l;
        assert R[m] == O[l];
      }
    }
  }

  class PhysicsEngine {
    const world: World
    const stepThread: FrameThread
    const frameRate: int32

    var objectsToAdd: seq<PhysicsObject>
    var objectsToRemove: seq<PhysicsObject>
    var victims: seq<PhysicsObject>
    /** Objects waiting for the world size. */
    var relativeObjects: seq<PhysicsObject>
    var width: int32
    var height: int32
    /** The shape objects `onAttach` has reached, in call order. */
    ghost var attached: seq<ShapeObject>

    /** The world is consistent and every object the engine will forward a call to is a
        well-formed tree. */
    ghost predicate Valid()
      reads this, world
    {
      && world.Valid()
      && (forall i :: 0 <= i < |objectsToAdd| ==> objectsToAdd[i].Valid())
      && (forall i :: 0 <= i < |relativeObjects| ==> relativeObjects[i].Valid())
    }

    /** `new PhysicsEngine(frameRate)`, with its field initialisers. */
    constructor (frameRate: int32)
      ensures Valid() && fresh(world) && fresh(stepThread)
      ensures this.frameRate == frameRate && world.gravity == Gravity
      ensures world.bodies == [] && world.live == {} && world.destroyed == [] && world.steps == []
      ensures objectsToAdd == [] && objectsToRemove == [] && victims == [] && relativeObjects == []
      ensures width == 0 && height == 0 && attached == []
      ensures stepThread.running && stepThread.frameWait == 0
    {
      world := new World(Gravity);
      stepThread := new FrameThread();
      this.frameRate := frameRate;
      objectsToAdd, objectsToRemove, victims, relativeObjects := [], [], [], [];
      width, height := 0, 0;
      attached := [];
    }

    /** `start()`: starts the frame thread at the engine's rate. */
    method Start() returns (outcome: Outcome)
      modifies stepThread
      ensures frameRate == 0 ==> outcome == Fail(Arithmetic) && unchanged(stepThread)
      ensures frameRate != 0 ==> outcome == Pass && stepThread.running
      ensures frameRate != 0 ==> stepThread.frameWait == FrameWaitFor(frameRate).value
      ensures frameRate != 0 ==> stepThread.frameTime == stepThread.frameWait as real / 1000.0
    {
      outcome := stepThread.Start(frameRate);
    }

    /** `stop()`: stops the frame thread. */
    method Stop()
      modifies stepThread
      ensures !stepThread.running && stepThread.frameWait == old(stepThread.frameWait)
      ensures stepThread.frameTime == old(stepThread.frameTime)
    {
      stepThread.Stop();
    }

    /** `add(victim)`: attaches the object, resolves it when a size is already known (the sum of
        the sizes is a Java `int`, so it can wrap), then appends it to exactly one queue:
        `relativeObjects` when it still requires relative resolution, `objectsToAdd` otherwise.
        An exception from setupRelative leaves both queues as they were. */
    method Add(victim: PhysicsObject) returns (outcome: Outcome)
      requires Valid() && victim.Valid()
      modifies this, victim.LeafSet()
      ensures Valid()
      ensures attached == old(attached) + victim.LeafSeq()
      ensures Add32(width, height) > 0 ==>
        && outcome == SetupOutcome(old(States(victim.LeafSeq())))
        && States(victim.LeafSeq()) == SetupAll(old(States(victim.LeafSeq())), width, height)
      ensures Add32(width, height) <= 0 ==> outcome == Pass && unchanged(victim.LeafSet())
      ensures Add32(width, height) > 0 && outcome.Pass? ==> !victim.NeedsRelative()
      ensures outcome.Fail? ==> objectsToAdd == old(objectsToAdd) && relativeObjects == old(relativeObjects)
      ensures outcome.Pass? && victim.NeedsRelative() ==>
        relativeObjects == old(relativeObjects) + [victim] && objectsToAdd == old(objectsToAdd)
      ensures outcome.Pass? && !victim.NeedsRelative() ==>
        objectsToAdd == old(objectsToAdd) + [victim] && relativeObjects == old(relativeObjects)
      ensures objectsToRemove == old(objectsToRemove) && victims == old(victims)
      ensures width == old(width) && height == old(height)
    {
      ghost var reached := victim.OnAttach();
      outcome := SetupAndRoute(victim);
      // `attached` only logs the onAttach notifications above; setupRelative and the queues
      // neither read nor change it.
      attached := attached + reached;
    }

    /** The rest of `add`: setupRelative once a size is known, then the queue. */
    method SetupAndRoute(victim: PhysicsObject) returns (outcome: Outcome)
      requires Valid() && victim.Valid()
      modifies this, victim.LeafSet()
      ensures Valid()
      ensures attached == old(attached)
      ensures Add32(width, height) > 0 ==>
        && outcome == SetupOutcome(old(States(victim.LeafSeq())))
        && States(victim.LeafSeq()) == SetupAll(old(States(victim.LeafSeq())), width, height)
      ensures Add32(width, height) <= 0 ==> outcome == Pass && unchanged(victim.LeafSet())
      ensures Add32(width, height) > 0 && outcome.Pass? ==> !victim.NeedsRelative()
      ensures outcome.Fail? ==> objectsToAdd == old(objectsToAdd) && relativeObjects == old(relativeObjects)
      ensures outcome.Pass? && victim.NeedsRelative() ==>
        relativeObjects == old(relativeObjects) + [victim] && objectsToAdd == old(objectsToAdd)
      ensures outcome.Pass? && !victim.NeedsRelative() ==>
        objectsToAdd == old(objectsToAdd) + [victim] && relativeObjects == old(relativeObjects)
      ensures objectsToRemove == old(objectsToRemove) && victims == old(victims)
      ensures width == old(width) && height == old(height)
    {
      outcome := SetupIfSized(victim);
      if outcome.Fail? {
        return;
      }
      ghost var set_up := States(victim.LeafSeq());
      Enqueue(victim);
      assert States(victim.LeafSeq()) == set_up;
    }

    /** The middle of `add`: setupRelative, but only once the sum of the sizes is positive. */
    method SetupIfSized(victim: PhysicsObject) returns (outcome: Outcome)
      requires victim.Valid()
      modifies victim.LeafSet()
      ensures Add32(width, height) > 0 ==>
        && outcome == SetupOutcome(old(States(victim.LeafSeq())))
        && States(victim.LeafSeq()) == SetupAll(old(States(victim.LeafSeq())), width, height)
      ensures Add32(width, height) > 0 && outcome.Pass? ==> !victim.NeedsRelative()
      ensures Add32(width, height) <= 0 ==> outcome == Pass && unchanged(victim.LeafSet())
    {
      outcome := Pass;
      if Add32(width, height) > 0 {
        outcome := victim.SetupRelative(width, height);
      }
    }

    /** The end of `add`: the object goes to exactly one queue. */
    method Enqueue(victim: PhysicsObject)
      requires Valid() && victim.Valid()
      modifies this
      ensures Valid()
      ensures attached == old(attached)
      ensures victim.NeedsRelative() ==>
        relativeObjects == old(relativeObjects) + [victim] && objectsToAdd == old(objectsToAdd)
      ensures !victim.NeedsRelative() ==>
        objectsToAdd == old(objectsToAdd) + [victim] && relativeObjects == old(relativeObjects)
      ensures objectsToRemove == old(objectsToRemove) && victims == old(victims)
      ensures width == old(width) && height == old(height)
    {
      var needsRelative := victim.RequiresRelative();
      if needsRelative {
        relativeObjects := relativeObjects + [victim];
      } else {
        objectsToAdd := objectsToAdd + [victim];
      }
    }

    /** `remove(object)`: only schedules the object; nothing else changes. */
    method Remove(obj: PhysicsObject)
      modifies this
      ensures objectsToRemove == old(objectsToRemove) + [obj]
      ensures objectsToAdd == old(objectsToAdd) && relativeObjects == old(relativeObjects)
      ensures victims == old(victims) && width == old(width) && height == old(height)
      ensures attached == old(attached)
    {
      objectsToRemove := objectsToRemove + [obj];
    }

    /** `setWorldSize(width, height)`: records the size, then drains `relativeObjects` in FIFO
        order, resolving each object and adding it again (so it is attached a second time). Every
        object that resolves lands in `objectsToAdd`, and each of its shape objects ends up with
        its relative data resolved against the new size. setupRelative throws
        IllegalStateException exactly when some queued shape object already has a body: the first
        object holding one, `failed`, has been taken off the queue and is lost, its shape objects
        before the bodied one are resolved, and the objects after it stay queued, untouched. */
    method SetWorldSize(w: int32, h: int32) returns (outcome: Outcome, ghost failed: nat)
      requires Valid()
      modifies this, Footprint(relativeObjects)
      ensures Valid()
      ensures width == w && height == h
      ensures objectsToRemove == old(objectsToRemove) && victims == old(victims)
      ensures forall l :: l in Footprint(old(relativeObjects)) ==> old(allocated(l))
      ensures outcome.Pass? <==> forall l :: l in Footprint(old(relativeObjects)) ==> old(l.State()).body.None?
      ensures outcome.Pass? ==>
        && relativeObjects == []
        && objectsToAdd == old(objectsToAdd) + old(relativeObjects)
        && attached == old(attached) + Flatten(old(relativeObjects))
        && (forall l :: l in Footprint(old(relativeObjects)) ==> l.State() == old(l.State()).Resolved(w, h))
        && (forall l :: l in Footprint(old(relativeObjects)) ==> !l.State().RequiresRelative())
      ensures outcome.Fail? ==> outcome.error == IllegalState
      ensures outcome.Fail? ==>
        && failed < |old(relativeObjects)|
        && relativeObjects == old(relativeObjects)[failed + 1..]
        && objectsToAdd == old(objectsToAdd) + old(relativeObjects)[..failed]
        && attached == old(attached) + Flatten(old(relativeObjects)[..failed])
        && (forall l :: l in Footprint(old(relativeObjects)[..failed]) ==>
              l in Footprint(old(relativeObjects)) && old(l.State()).body.None?)
        && (exists l :: l in old(relativeObjects)[failed].LeafSet() && l in Footprint(old(relativeObjects))
                      && old(l.State()).body.Some?)
        && (forall l :: l in Footprint(old(relativeObjects)) ==>
              l.State() == if l in ResolvedBeforeThrow(old(relativeObjects), failed, old(States(relativeObjects[failed].LeafSeq())))
                           then old(l.State()).Resolved(w, h) else old(l.State()))
    {
      ghost var U := Footprint(relativeObjects);
      ghost var O := map l | l in U :: l.State();
      FootprintAllocated(relativeObjects);
      outcome, failed := DrainRelative(w, h, U, O);
      if outcome.Fail? {
        FootprintHas(old(relativeObjects), failed);
        assert old(States(relativeObjects[failed].LeafSeq())) == Recorded(old(relativeObjects)[failed].LeafSeq(), O);
      }
    }

    /** The body of setWorldSize, the new size and then the loop over the shape objects U of
        `relativeObjects`, whose states are recorded in O: the same promise, stated against O. */
    method DrainRelative(w: int32, h: int32, ghost U: set<ShapeObject>, ghost O: map<ShapeObject, ShapeState>)
      returns (outcome: Outcome, ghost failed: nat)
      requires Valid() && U == Footprint(relativeObjects)
      requires forall l :: l in U ==> l in O && l.State() == O[l]
      modifies this, U
      ensures Valid() && width == w && height == h
      ensures objectsToRemove == old(objectsToRemove) && victims == old(victims)
      ensures outcome.Pass? <==> forall l :: l in U ==> O[l].body.None?
      ensures outcome.Pass? ==>
        && relativeObjects == []
        && objectsToAdd == old(objectsToAdd) + old(relativeObjects)
        && attached == old(attached) + Flatten(old(relativeObjects))
        && (forall l :: l in U ==> l.State() == O[l].Resolved(width, height))
        && (forall l :: l in U ==> !l.State().RequiresRelative())
      ensures outcome.Fail? ==>
        && outcome.error == IllegalState
        && failed < |old(relativeObjects)|
        && relativeObjects == old(relativeObjects)[failed + 1..]
        && objectsToAdd == old(objectsToAdd) + old(relativeObjects)[..failed]
        && attached == old(attached) + Flatten(old(relativeObjects)[..failed])
        && (forall l :: l in Footprint(old(relativeObjects)[..failed]) ==> l in U && O[l].body.None?)
        && (exists l :: l in old(relativeObjects)[failed].LeafSet() && l in U && O[l].body.Some?)
        && old(relativeObjects)[failed].LeafSet() <= U
        && (forall l :: l in U ==>
              l.State() == if l in ResolvedBeforeThrow(old(relativeObjects), failed, Recorded(old(relativeObjects)[failed].LeafSeq(), O))
                           then O[l].Resolved(width, height) else O[l])
    {
      ghost var R0, A0, T0 := relativeObjects, objectsToAdd, attached;
      width, height := w, h;
      failed := 0;
      outcome := Pass;
      var k := 0;
      while relativeObjects != []
        invariant 0 <= k <= |R0| && relativeObjects == R0[k..]
        invariant Valid() && forall i :: 0 <= i < |R0| ==> R0[i].Valid()
        invariant objectsToAdd == A0 + R0[..k] && attached == T0 + Flatten(R0[..k])
        invariant U == Footprint(R0) && Footprint(R0[..k]) <= U
        invariant forall l :: l in U ==> l in O && l.State() == if l in Footprint(R0[..k]) then O[l].Resolved(width, height) else O[l]
        invariant forall l :: l in Footprint(R0[..k]) ==> O[l].body.None?
        invariant width == w && height == h && outcome == Pass
        invariant objectsToRemove == old(objectsToRemove) && victims == old(victims)
        decreases |relativeObjects|
      {
        outcome := ResolveTurn(R0, U, O, A0, T0, k);
        if outcome.Fail? {
          failed := k;
          return;
        }
        k := k + 1;
      }
      assert R0[..k] == R0;
      forall l | l in U
        ensures !l.State().RequiresRelative()
      {
        ResolvedSpec(O[l], width, height);
      }
    }

    /** The k-th turn of the setWorldSize loop, with its bookkeeping: R0 is the queue as the loop
        found it, U its shape objects, O their states then, A0 and T0 the add queue and the
        attached trace then. The turn either extends the resolved prefix by object k or throws at
        object k's first shape object with a body. */
    method ResolveTurn(ghost R0: seq<PhysicsObject>, ghost U: set<ShapeObject>, ghost O: map<ShapeObject, ShapeState>,
                       ghost A0: seq<PhysicsObject>, ghost T0: seq<ShapeObject>, k: nat) returns (outcome: Outcome)
      requires k < |R0| && relativeObjects == R0[k..]
      requires Valid() && forall i :: 0 <= i < |R0| ==> R0[i].Valid()
      requires objectsToAdd == A0 + R0[..k] && attached == T0 + Flatten(R0[..k])
      requires U == Footprint(R0) && Footprint(R0[..k]) <= U
      requires forall l :: l in U ==> l in O && l.State() == if l in Footprint(R0[..k]) then O[l].Resolved(width, height) else O[l]
      requires forall l :: l in Footprint(R0[..k]) ==> O[l].body.None?
      modifies this, U
      ensures Valid() && width == old(width) && height == old(height)
      ensures objectsToRemove == old(objectsToRemove) && victims == old(victims)
      ensures relativeObjects == R0[k + 1..]
      ensures outcome.Pass? ==>
        && objectsToAdd == A0 + R0[..k + 1] && attached == T0 + Flatten(R0[..k + 1])
        && Footprint(R0[..k + 1]) <= U
        && (forall l :: l in U ==> l.State() == if l in Footprint(R0[..k + 1]) then O[l].Resolved(width, height) else O[l])
        && (forall l :: l in Footprint(R0[..k + 1]) ==> O[l].body.None?)
      ensures outcome.Fail? ==>
        && outcome == Fail(IllegalState)
        && objectsToAdd == A0 + R0[..k] && attached == T0 + Flatten(R0[..k])
        && (exists l :: l in R0[k].LeafSet() && l in U && O[l].body.Some?)
        && R0[k].LeafSet() <= U
        && (forall l :: l in U ==>
              l.State() == if l in ResolvedBeforeThrow(R0, k, Recorded(R0[k].LeafSeq(), O))
                           then O[l].Resolved(width, height) else O[l])
    {
      FootprintHas(R0, k);
      QueueSegment(R0, k);
      DropOneMore(R0, k);
      var obj;
      ghost var reached;
      obj, outcome, reached := ResolveNext(U, O, Footprint(R0[..k]));
      RecordedBodies(obj.LeafSeq(), O);
      if outcome.Fail? {
        ghost var bodied :| bodied in obj.LeafSeq() && O[bodied].body.Some?;
        assert bodied in obj.LeafSet();
        return;
      }
      AppendAssociative(A0, R0[..k], [obj]);
      AppendAssociative(T0, Flatten(R0[..k]), obj.LeafSeq());
      TakeOneMore(R0, k);
    }

    /** One turn of the setWorldSize loop: poll the head of `relativeObjects`, resolve it against
        the recorded size, then `add` it, which can no longer throw and routes it to
        `objectsToAdd`. U holds the shape objects of the whole queue, O their states before the
        loop, D those resolved so far; `reached` is the shape objects this turn resolves. */
    method ResolveNext(ghost U: set<ShapeObject>, ghost O: map<ShapeObject, ShapeState>, ghost D: set<ShapeObject>)
      returns (obj: PhysicsObject, outcome: Outcome, ghost reached: set<ShapeObject>)
      requires Valid() && relativeObjects != [] && relativeObjects[0].LeafSet() <= U
      requires forall l :: l in U ==> l in O && l.State() == if l in D then O[l].Resolved(width, height) else O[l]
      modifies this, relativeObjects[0].LeafSet()
      ensures Valid()
      ensures obj == old(relativeObjects[0]) && relativeObjects == old(relativeObjects[1..])
      ensures width == old(width) && height == old(height)
      ensures objectsToRemove == old(objectsToRemove) && victims == old(victims)
      ensures outcome == SetupOutcome(old(States(relativeObjects[0].LeafSeq())))
      ensures States(obj.LeafSeq()) == SetupAll(old(States(relativeObjects[0].LeafSeq())), width, height)
      ensures outcome == SetupOutcome(Recorded(obj.LeafSeq(), O))
      ensures reached == Elements(obj.LeafSeq()[..FirstBodied(Recorded(obj.LeafSeq(), O))])
      ensures forall l :: l in U ==> l.State() == if l in D + reached then O[l].Resolved(width, height) else O[l]
      ensures outcome.Fail? ==> outcome == Fail(IllegalState)
      ensures outcome.Fail? ==> objectsToAdd == old(objectsToAdd) && attached == old(attached)
      ensures outcome.Pass? ==> objectsToAdd == old(objectsToAdd) + [obj] && attached == old(attached) + obj.LeafSeq()
      ensures outcome.Pass? ==> reached == obj.LeafSet()
    {
      ghost var S := States(relativeObjects[0].LeafSeq());
      obj, outcome, reached := SetupHead(U, O, D);
      DropHead(U, O, D + reached, S, outcome.Pass?);
      if outcome.Pass? {
        ghost var resolved := States(obj.LeafSeq());
        outcome := AddResolved(obj, S);
        assert States(obj.LeafSeq()) == resolved;
      }
    }

    /** The first half of a setWorldSize turn: the head of `relativeObjects` runs its
        setupRelative against the recorded size. */
    method SetupHead(ghost U: set<ShapeObject>, ghost O: map<ShapeObject, ShapeState>, ghost D: set<ShapeObject>)
      returns (obj: PhysicsObject, outcome: Outcome, ghost reached: set<ShapeObject>)
      requires Valid() && relativeObjects != [] && relativeObjects[0].LeafSet() <= U
      requires forall l :: l in U ==> l in O && l.State() == if l in D then O[l].Resolved(width, height) else O[l]
      modifies relativeObjects[0].LeafSet()
      ensures obj == relativeObjects[0]
      ensures outcome == SetupOutcome(old(States(obj.LeafSeq())))
      ensures States(obj.LeafSeq()) == SetupAll(old(States(obj.LeafSeq())), width, height)
      ensures outcome.Pass? ==> !obj.NeedsRelative()
      ensures outcome == SetupOutcome(Recorded(obj.LeafSeq(), O))
      ensures reached == Elements(obj.LeafSeq()[..FirstBodied(Recorded(obj.LeafSeq(), O))])
      ensures forall l :: l in U ==> l.State() == if l in D + reached then O[l].Resolved(width, height) else O[l]
      ensures outcome.Pass? ==> reached == obj.LeafSet()
    {
      obj := relativeObjects[0];
      ghost var L := obj.LeafSeq();
      ghost var S := States(L);
      LeafSeqDistinct(obj);
      StatesNow(obj, U, O, D, width, height);
      SetupLeaves(L, S, O, D, width, height);
      reached := Elements(L[..FirstBodied(Recorded(L, O))]);
      outcome := obj.SetupRelative(width, height);
      if outcome.Pass? {
        assert L[..|L|] == L;
      }
      forall l | l in U
        ensures l.State() == if l in D + reached then O[l].Resolved(width, height) else O[l]
      {
        if l in obj.LeafSet() {
          var m :| 0 <= m < |L| && L[m] == l;
          assert l.State() == States(L)[m];
        }
      }
    }

    /** The poll of a setWorldSize turn, after the head's setupRelative (the poll only changes the
        queue, setupRelative only the shape objects): the head leaves the queue and every shape
        object keeps the state the setup gave it, as tracked against O with E resolved. */
    method DropHead(ghost U: set<ShapeObject>, ghost O: map<ShapeObject, ShapeState>, ghost E: set<ShapeObject>,
                    ghost S: seq<ShapeState>, ghost resolved: bool)
      requires Valid() && relativeObjects != []
      requires States(relativeObjects[0].LeafSeq()) == SetupAll(S, width, height)
      requires resolved ==> !relativeObjects[0].NeedsRelative()
      requires forall l :: l in U ==> l in O && l.State() == if l in E then O[l].Resolved(width, height) else O[l]
      modifies this
      ensures Valid() && relativeObjects == old(relativeObjects[1..])
      ensures objectsToAdd == old(objectsToAdd) && attached == old(attached)
      ensures width == old(width) && height == old(height)
      ensures objectsToRemove == old(objectsToRemove) && victims == old(victims)
      ensures States(old(relativeObjects[0]).LeafSeq()) == SetupAll(S, width, height)
      ensures resolved ==> !old(relativeObjects[0]).NeedsRelative()
      ensures forall l :: l in U ==> l in O && l.State() == if l in E then O[l].Resolved(width, height) else O[l]
    {
      relativeObjects := relativeObjects[1..];
    }

    /** The `add` at the end of a setWorldSize turn: the object has just been resolved against
        the recorded size, so resolving it again changes nothing and cannot throw, and the object
        goes to `objectsToAdd`. */
    method AddResolved(obj: PhysicsObject, ghost S: seq<ShapeState>) returns (outcome: Outcome)
      requires Valid() && obj.Valid()
      requires SetupOutcome(S) == Pass && States(obj.LeafSeq()) == SetupAll(S, width, height)
      requires !obj.NeedsRelative()
      modifies this, obj.LeafSet()
      ensures Valid() && outcome == Pass && !obj.NeedsRelative()
      ensures States(obj.LeafSeq()) == old(States(obj.LeafSeq()))
      ensures forall l :: l in obj.LeafSet() ==> l.State() == old(l.State())
      ensures objectsToAdd == old(objectsToAdd) + [obj] && attached == old(attached) + obj.LeafSeq()
      ensures relativeObjects == old(relativeObjects) && width == old(width) && height == old(height)
      ensures objectsToRemove == old(objectsToRemove) && victims == old(victims)
    {
      SetupAgain(S, width, height, width, height);
      label Resolved:
      outcome := Add(obj);
      if Add32(width, height) <= 0 {
        NeedsRelativeKept@Resolved(obj);
      }
      forall l | l in obj.LeafSet()
        ensures l.State() == old(l.State())
      {
        var m :| 0 <= m < |obj.LeafSeq()| && obj.LeafSeq()[m] == l;
        assert l.State() == States(obj.LeafSeq())[m];
      }
    }

    /** `createPendingObjects()`: polls `objectsToAdd` until it is empty, creating each object in
        the world and appending it to `victims`. The bodies are created one per shape object, in
        queue order; every shape object of a created object ends up with a live body and nothing
        else of it changes. */
    method CreatePendingObjects()
      requires Valid()
      modifies this, world, Footprint(objectsToAdd)
      ensures Valid()
      ensures objectsToAdd == [] && victims == old(victims) + old(objectsToAdd)
      ensures relativeObjects == old(relativeObjects) && objectsToRemove == old(objectsToRemove)
      ensures width == old(width) && height == old(height) && attached == old(attached)
      ensures world.bodies == old(world.bodies) + CreationRecords(old(States(Flatten(objectsToAdd))))
      ensures world.live == old(world.live) + HandleRange(|old(world.bodies)|, |Flatten(old(objectsToAdd))|)
      ensures world.destroyed == old(world.destroyed) && world.steps == old(world.steps)
      ensures forall l :: l in Footprint(old(objectsToAdd)) ==>
        && l.body.Some? && |old(world.bodies)| <= l.body.value < |world.bodies| && l.body.value in world.live
        && world.bodies[l.body.value] == old(l.State()).CreationRecord()
        && l.State() == old(l.State()).(body := l.body)
    {
      ghost var Q := objectsToAdd;
      ghost var O := map l | l in Footprint(Q) :: l.State();
      CreateAll(O);
    }

    /** The loop of createPendingObjects, against the states O records for the shape objects of
        `objectsToAdd`: the same promise as createPendingObjects, stated against O. */
    method CreateAll(ghost O: map<ShapeObject, ShapeState>)
      requires Valid()
      requires forall l :: l in Footprint(objectsToAdd) ==> l in O && l.State() == O[l]
      modifies this, world, Footprint(objectsToAdd)
      ensures Valid()
      ensures objectsToAdd == [] && victims == old(victims) + old(objectsToAdd)
      ensures relativeObjects == old(relativeObjects) && objectsToRemove == old(objectsToRemove)
      ensures width == old(width) && height == old(height) && attached == old(attached)
      ensures world.bodies == old(world.bodies) + CreationRecords(old(States(Flatten(objectsToAdd))))
      ensures world.live == old(world.live) + HandleRange(|old(world.bodies)|, |Flatten(old(objectsToAdd))|)
      ensures world.destroyed == old(world.destroyed) && world.steps == old(world.steps)
      ensures forall l :: l in Footprint(old(objectsToAdd)) ==>
        && l.body.Some? && |old(world.bodies)| <= l.body.value < |world.bodies| && l.body.value in world.live
        && world.bodies[l.body.value] == O[l].CreationRecord()
        && l.State() == O[l].(body := l.body)
    {
      ghost var Q, V0 := objectsToAdd, victims;
      ghost var F := Flatten(Q);
      ghost var S0 := States(F);
      ghost var B0, L0 := world.bodies, world.live;
      var k := 0;
      while objectsToAdd != []
        invariant 0 <= k <= |Q| && objectsToAdd == Q[k..] && victims == V0 + Q[..k]
        invariant Valid() && forall i :: 0 <= i < |Q| ==> Q[i].Valid()
        invariant F == Flatten(Q) && |S0| == |F| && |Flatten(Q[..k])| <= |F|
        invariant forall j :: 0 <= j < |F| ==> F[j] in O && S0[j] == O[F[j]]
        invariant world.bodies == B0 + CreationRecords(S0[..|Flatten(Q[..k])|])
        invariant world.live == L0 + HandleRange(|B0|, |Flatten(Q[..k])|)
        invariant forall l :: l in Footprint(Q) ==> l in O && l.State() == O[l].(body := l.body)
        invariant forall l :: l in Footprint(Q[..k]) ==>
          l.body.Some? && |B0| <= l.body.value < |world.bodies| && l in O && world.bodies[l.body.value] == O[l].CreationRecord()
        invariant world.destroyed == old(world.destroyed) && world.steps == old(world.steps)
        invariant relativeObjects == old(relativeObjects) && objectsToRemove == old(objectsToRemove)
        invariant width == old(width) && height == old(height) && attached == old(attached)
        decreases |objectsToAdd|
      {
        CreateTurn(Q, F, O, S0, B0, L0, V0, k);
        k := k + 1;
      }
      assert Q[..k] == Q;
      TakeAll(S0);
    }

    /** One turn of the createPendingObjects loop, the k-th, with its bookkeeping: Q is the queue
        as the loop found it, F its shape objects, O and S0 their states then (by object and in
        order), B0 and L0 the world's bodies and live handles then. */
    method CreateTurn(ghost Q: seq<PhysicsObject>, ghost F: seq<ShapeObject>, ghost O: map<ShapeObject, ShapeState>,
                      ghost S0: seq<ShapeState>, ghost B0: seq<BodyRecord>, ghost L0: set<Handle>,
                      ghost V0: seq<PhysicsObject>, k: nat)
      requires k < |Q| && objectsToAdd == Q[k..] && victims == V0 + Q[..k]
      requires Valid() && forall i :: 0 <= i < |Q| ==> Q[i].Valid()
      requires F == Flatten(Q) && |S0| == |F| && |Flatten(Q[..k])| <= |F|
      requires forall j :: 0 <= j < |F| ==> F[j] in O && S0[j] == O[F[j]]
      requires world.bodies == B0 + CreationRecords(S0[..|Flatten(Q[..k])|])
      requires world.live == L0 + HandleRange(|B0|, |Flatten(Q[..k])|)
      requires forall l :: l in Footprint(Q) ==> l in O && l.State() == O[l].(body := l.body)
      requires forall l :: l in Footprint(Q[..k]) ==>
        l.body.Some? && |B0| <= l.body.value < |world.bodies| && l in O && world.bodies[l.body.value] == O[l].CreationRecord()
      modifies this, world, Footprint(Q)
      ensures objectsToAdd == Q[k + 1..] && victims == V0 + Q[..k + 1]
      ensures Valid() && |Flatten(Q[..k + 1])| <= |F|
      ensures world.bodies == B0 + CreationRecords(S0[..|Flatten(Q[..k + 1])|])
      ensures world.live == L0 + HandleRange(|B0|, |Flatten(Q[..k + 1])|)
      ensures forall l :: l in Footprint(Q) ==> l in O && l.State() == O[l].(body := l.body)
      ensures forall l :: l in Footprint(Q[..k + 1]) ==>
        l.body.Some? && |B0| <= l.body.value < |world.bodies| && l in O && world.bodies[l.body.value] == O[l].CreationRecord()
      ensures world.destroyed == old(world.destroyed) && world.steps == old(world.steps)
      ensures relativeObjects == old(relativeObjects) && objectsToRemove == old(objectsToRemove)
      ensures width == old(width) && height == old(height) && attached == old(attached)
    {
      ghost var p := |Flatten(Q[..k])|;
      ghost var q := p + |Q[k].LeafSeq()|;
      ghost var head := Q[k];
      ghost var bodies, live := world.bodies, world.live;
      ghost var created := Footprint(Q[..k]);
      assert objectsToAdd[0] == head && objectsToAdd[1..] == Q[k + 1..] by {
        DropOneMore(Q, k);
      }
      assert head.LeafSet() <= Footprint(Q) by {
        FootprintHas(Q, k);
      }
      assert q <= |F| && q == |Flatten(Q[..k + 1])| && Footprint(Q[..k + 1]) == created + head.LeafSet()
        && CreationRecords(States(head.LeafSeq())) == CreationRecords(S0[p..q]) by {
        QueueSegment(Q, k);
        OriginalRecords(head, F, p, q, Footprint(Q), O, S0);
      }
      CreateNext(Footprint(Q), O, created, |B0|);
      assert world.bodies == B0 + CreationRecords(S0[..q]) && world.live == L0 + HandleRange(|B0|, q) by {
        CreateWorldStep(S0, p, q, B0, bodies, world.bodies, L0, live, world.live);
      }
      assert victims == V0 + Q[..k + 1] by {
        AppendAssociative(V0, Q[..k], [Q[k]]);
        TakeOneMore(Q, k);
      }
    }

    /** One turn of the createPendingObjects loop: poll the head of `objectsToAdd`, create it in
        the world, append it to `victims`. */
    method CreateNext(ghost U: set<ShapeObject>, ghost O: map<ShapeObject, ShapeState>,
                      ghost C: set<ShapeObject>, ghost lo: nat)
      requires Valid() && objectsToAdd != []
      requires objectsToAdd[0].LeafSet() <= U && lo <= |world.bodies|
      requires forall l :: l in U ==> l in O && l.State() == O[l].(body := l.body)
      requires forall l :: l in C ==>
        l.body.Some? && lo <= l.body.value < |world.bodies| && l in O && world.bodies[l.body.value] == O[l].CreationRecord()
      modifies this, world, objectsToAdd[0].LeafSet()
      ensures Valid()
      ensures objectsToAdd == old(objectsToAdd)[1..] && victims == old(victims) + [old(objectsToAdd)[0]]
      ensures relativeObjects == old(relativeObjects) && objectsToRemove == old(objectsToRemove)
      ensures width == old(width) && height == old(height) && attached == old(attached)
      ensures world.bodies == old(world.bodies) + CreationRecords(old(States(objectsToAdd[0].LeafSeq())))
      ensures world.live == old(world.live) + HandleRange(|old(world.bodies)|, |old(objectsToAdd)[0].LeafSeq()|)
      ensures world.destroyed == old(world.destroyed) && world.steps == old(world.steps)
      ensures forall l :: l in U ==> l in O && l.State() == O[l].(body := l.body)
      ensures forall l :: l in C + old(objectsToAdd)[0].LeafSet() ==>
        l.body.Some? && lo <= l.body.value < |world.bodies| && l in O && world.bodies[l.body.value] == O[l].CreationRecord()
    {
      var victim := objectsToAdd[0];
      CreateHead(victim, U, O, C, lo);
      objectsToAdd, victims := objectsToAdd[1..], victims + [victim];
    }

    /** The `victim.onCreate(world)` of a createPendingObjects turn: the shape objects of U have,
        up to the body, the states recorded in O; afterwards each of the victim's holds a new handle
        whose body is built from its recorded state. */
    method CreateHead(victim: PhysicsObject, ghost U: set<ShapeObject>, ghost O: map<ShapeObject, ShapeState>,
                      ghost C: set<ShapeObject>, ghost lo: nat)
      requires world.Valid() && victim.Valid() && victim.LeafSet() <= U && lo <= |world.bodies|
      requires forall l :: l in U ==> l in O && l.State() == O[l].(body := l.body)
      requires forall l :: l in C ==>
        l.body.Some? && lo <= l.body.value < |world.bodies| && l in O && world.bodies[l.body.value] == O[l].CreationRecord()
      modifies world, victim.LeafSet()
      ensures world.Valid()
      ensures world.bodies == old(world.bodies) + CreationRecords(old(States(victim.LeafSeq())))
      ensures world.live == old(world.live) + HandleRange(|old(world.bodies)|, |victim.LeafSeq()|)
      ensures world.destroyed == old(world.destroyed) && world.steps == old(world.steps)
      ensures forall l :: l in U ==> l in O && l.State() == O[l].(body := l.body)
      ensures forall l :: l in C + victim.LeafSet() ==>
        l.body.Some? && lo <= l.body.value < |world.bodies| && l in O && world.bodies[l.body.value] == O[l].CreationRecord()
    {
      ghost var bodies0 := world.bodies;
      ghost var before := States(victim.LeafSeq());
      StatesUpToBodies(victim, U, O);
      victim.OnCreate(world);
      CreatedLeaves(victim, before, O, bodies0, world.bodies);
      forall l | l in C && l !in victim.LeafSet()
        ensures world.bodies[l.body.value] == O[l].CreationRecord()
      {
        assert world.bodies[l.body.value] == bodies0[l.body.value];
      }
    }

    /** `deleteStaleObjects()`, as written: it polls `objectsToAdd`, not `objectsToRemove`, so it
        destroys the bodies of the objects still waiting to be created and removes them from
        `victims`; `objectsToRemove` is never read. */
    method DeleteStaleObjects()
      requires Valid()
      modifies this, world
      ensures Valid()
      ensures objectsToAdd == [] && victims == RemoveEach(old(victims), old(objectsToAdd))
      ensures relativeObjects == old(relativeObjects) && objectsToRemove == old(objectsToRemove)
      ensures width == old(width) && height == old(height) && attached == old(attached)
      ensures world.destroyed == old(world.destroyed) + Handles(States(Flatten(old(objectsToAdd))))
      ensures world.live == old(world.live) - HandleSet(States(Flatten(old(objectsToAdd))))
      ensures world.bodies == old(world.bodies) && world.steps == old(world.steps)
      ensures old(objectsToAdd) == [] ==> unchanged(this, world)
    {
      ghost var Q, V0 := objectsToAdd, victims;
      ghost var F := Flatten(Q);
      ghost var S := States(F);
      ghost var D0, L0 := world.destroyed, world.live;
      var k := 0;
      while objectsToAdd != []
        invariant 0 <= k <= |Q| && objectsToAdd == Q[k..] && victims == RemoveEach(V0, Q[..k])
        invariant forall i :: 0 <= i < |Q| ==> Q[i].Valid()
        invariant world.Valid() && F == Flatten(Q) && States(F) == S && |Flatten(Q[..k])| <= |F|
        invariant world.destroyed == D0 + Handles(S[..|Flatten(Q[..k])|])
        invariant world.live == L0 - HandleSet(S[..|Flatten(Q[..k])|])
        invariant world.bodies == old(world.bodies) && world.steps == old(world.steps)
        invariant relativeObjects == old(relativeObjects) && objectsToRemove == old(objectsToRemove)
        invariant width == old(width) && height == old(height) && attached == old(attached)
        invariant Q == [] ==> unchanged(this, world)
        decreases |objectsToAdd|
      {
        DeleteTurn(Q, F, S, D0, L0, V0, k);
        k := k + 1;
      }
      assert Q[..k] == Q;
      TakeAll(S);
    }

    /** One turn of the deleteStaleObjects loop, the k-th, with its bookkeeping: Q is the queue
        as the loop found it, F its shape objects, S their states, D0 and L0 the world's destroyed
        log and live handles then. */
    method DeleteTurn(ghost Q: seq<PhysicsObject>, ghost F: seq<ShapeObject>, ghost S: seq<ShapeState>,
                      ghost D0: seq<Handle>, ghost L0: set<Handle>, ghost V0: seq<PhysicsObject>, k: nat)
      requires k < |Q| && objectsToAdd == Q[k..] && victims == RemoveEach(V0, Q[..k])
      requires forall i :: 0 <= i < |Q| ==> Q[i].Valid()
      requires world.Valid() && F == Flatten(Q) && States(F) == S && |Flatten(Q[..k])| <= |F|
      requires world.destroyed == D0 + Handles(S[..|Flatten(Q[..k])|])
      requires world.live == L0 - HandleSet(S[..|Flatten(Q[..k])|])
      modifies this, world
      ensures objectsToAdd == Q[k + 1..] && victims == RemoveEach(V0, Q[..k + 1])
      ensures world.Valid() && States(F) == S && |Flatten(Q[..k + 1])| <= |F|
      ensures world.destroyed == D0 + Handles(S[..|Flatten(Q[..k + 1])|])
      ensures world.live == L0 - HandleSet(S[..|Flatten(Q[..k + 1])|])
      ensures world.bodies == old(world.bodies) && world.steps == old(world.steps)
      ensures relativeObjects == old(relativeObjects) && objectsToRemove == old(objectsToRemove)
      ensures width == old(width) && height == old(height) && attached == old(attached)
    {
      DropOneMore(Q, k);
      HeadStates(Q, F, S, k);
      ghost var p, q := |Flatten(Q[..k])|, |Flatten(Q[..k + 1])|;
      ghost var destroyed, live := world.destroyed, world.live;
      var victim := DestroyNext(S[p..q]);
      DestroyStep(S, p, q, D0, destroyed, world.destroyed, L0, live, world.live);
      RemoveEachStep(V0, Q, k);
    }

    /** One turn of the deleteStaleObjects loop: poll the head of `objectsToAdd`, destroy its
        bodies, remove it from `victims`. */
    method DestroyNext(ghost T: seq<ShapeState>) returns (victim: PhysicsObject)
      requires world.Valid() && objectsToAdd != [] && objectsToAdd[0].Valid()
      requires T == States(objectsToAdd[0].LeafSeq())
      modifies this, world
      ensures victim == old(objectsToAdd[0]) && objectsToAdd == old(objectsToAdd[1..])
      ensures victims == RemoveFirst(old(victims), victim)
      ensures world.Valid()
      ensures world.destroyed == old(world.destroyed) + Handles(T)
      ensures world.live == old(world.live) - HandleSet(T)
      ensures world.bodies == old(world.bodies) && world.steps == old(world.steps)
      ensures relativeObjects == old(relativeObjects) && objectsToRemove == old(objectsToRemove)
      ensures width == old(width) && height == old(height) && attached == old(attached)
    {
      victim := objectsToAdd[0];
      objectsToAdd := objectsToAdd[1..];
      victim.OnDestroy(world);
      victims := RemoveFirst(victims, victim);
    }

    /** The frame thread's `frame(frameTime)`: create the pending objects, "delete the stale ones"
        (which finds `objectsToAdd` already empty and does nothing), then step the world with 6
        velocity and 6 position iterations. Removals are never processed. */
    method Frame(frameTime: real)
      requires Valid()
      modifies this, world, Footprint(objectsToAdd)
      ensures Valid()
      ensures objectsToAdd == [] && victims == old(victims) + old(objectsToAdd)
      ensures relativeObjects == old(relativeObjects) && objectsToRemove == old(objectsToRemove)
      ensures width == old(width) && height == old(height) && attached == old(attached)
      ensures world.bodies == old(world.bodies) + CreationRecords(old(States(Flatten(objectsToAdd))))
      ensures world.live == old(world.live) + HandleRange(|old(world.bodies)|, |Flatten(old(objectsToAdd))|)
      ensures world.destroyed == old(world.destroyed)
      ensures world.steps == old(world.steps) + [StepCall(frameTime, VelocityIterations, PositionIterations)]
      ensures forall l :: l in Footprint(old(objectsToAdd)) ==>
        && l.body.Some? && |old(world.bodies)| <= l.body.value < |world.bodies| && l.body.value in world.live
        && world.bodies[l.body.value] == old(l.State()).CreationRecord()
        && l.State() == old(l.State()).(body := l.body)
    {
      ghost var U := Footprint(objectsToAdd);
      ghost var O := map l | l in U :: l.State();
      ghost var n0 := |world.bodies|;
      CreatePendingObjects();
      assert forall l :: l in U ==>
        && l in O && l.body.Some? && n0 <= l.body.value < |world.bodies| && l.body.value in world.live
        && world.bodies[l.body.value] == O[l].CreationRecord() && l.State() == O[l].(body := l.body);
      FootprintAllocated(old(objectsToAdd));
      FinishFrame(frameTime, U, O, n0);
      assert U == Footprint(old(objectsToAdd));
    }

    /** The rest of a frame once the queue is drained: deleteStaleObjects finds nothing to do, then
        the world steps; no shape object changes, so the bodies U were given stay as they were. */
    method FinishFrame(frameTime: real, ghost U: set<ShapeObject>, ghost O: map<ShapeObject, ShapeState>, ghost n0: nat)
      requires Valid() && objectsToAdd == []
      requires forall l :: l in U ==>
        && l in O && l.body.Some? && n0 <= l.body.value < |world.bodies| && l.body.value in world.live
        && world.bodies[l.body.value] == O[l].CreationRecord() && l.State() == O[l].(body := l.body)
      modifies this, world
      ensures Valid()
      ensures objectsToAdd == [] && victims == old(victims)
      ensures relativeObjects == old(relativeObjects) && objectsToRemove == old(objectsToRemove)
      ensures width == old(width) && height == old(height) && attached == old(attached)
      ensures world.bodies == old(world.bodies) && world.live == old(world.live)
      ensures world.destroyed == old(world.destroyed)
      ensures world.steps == old(world.steps) + [StepCall(frameTime, VelocityIterations, PositionIterations)]
      ensures forall l :: l in U ==>
        && l in O && l.body.Some? && n0 <= l.body.value < |world.bodies| && l.body.value in world.live
        && world.bodies[l.body.value] == O[l].CreationRecord() && l.State() == O[l].(body := l.body)
    {
      DeleteStaleObjects();
      world.Step(frameTime, VelocityIterations, PositionIterations);
    }
  }
}
