# flat-table-ball physics core, in Dafny

A model of the physics core of flat-table-ball, a small Android 2D physics engine built on
jbox2d, with proofs about it. It covers four parts:

- **The engine** (`Engine`, PhysicsEngine.java).
  - `add`, `remove` and `setWorldSize` route physics objects between the FIFO queues
    `relativeObjects`, `objectsToAdd` and `objectsToRemove`.
  - Each frame of the engine's frame thread creates the pending objects in the world, runs
    `deleteStaleObjects`, and steps the world with 6 velocity and 6 position iterations.
- **The object lifecycle** (`Objects`, `ShapeObjects`).
  - The `PhysicsObject` contract is modelled: `requiresRelative`, `setupRelative`, `onAttach`,
    `onCreate` and `onDestroy`.
  - `BasePhysicsObject`, `ShapeObject` and `AbstractBox` are one class, `ShapeObject`, with the two
    concrete boxes `Box` and `InsetBox` as named constructors. Every body-backed object in the
    repository is one of those two boxes.
  - `CompoundObject` is a class that forwards every call to its children in order.
  - A physics object is the datatype `Shape(ShapeObject) | Compound(CompoundObject)`.
  - The contracts are stated over the tree's shape objects in forwarding order (`LeafSeq`) and
    over specification functions of their states (`SetupAll`, `SetupOutcome`, `WithBodies`,
    `CreationRecords`, `Handles`).
- **Shapes and geometry** (`Shapes`, `Vecs`, `MeasurementUtil`).
  - `Box.createShape` and `InsetBox.createShape`.
  - `Vecs.vec2Array`, with its loop over a fresh array.
  - The pixel/metre conversion by 128 pixels per metre.
- **Frame pacing** (`Frames`, FrameThread.java).
  - `start(rate)` computes the frame length with Java integer division.
  - Each turn of `run()` computes the pause after a frame: the debug build subtracts whole frames
    in a loop and counts them; the production build uses the Java remainder.
  - `stop()` ends the loop at its next check.

The jbox2d world is the class `Backend.World`. It records every body created (a handle is the
body's index), the set of live handles, the handles passed to `destroyBody`, and the calls of
`step`. Java's `int` is `JavaLang.int32`: `width + height` in `add` wraps around, and `/` and `%`
truncate toward zero. Floats are modelled as `real`.

`deleteStaleObjects` is modelled as written: it polls `objectsToAdd`, not `objectsToRemove`.
`frame` calls it straight after `createPendingObjects` has emptied `objectsToAdd`, so it never
destroys anything. `objectsToRemove` is never read, and `victims` only grows.
`Engine.PhysicsEngine.Frame` states this.

Three more behaviours of the code that the model keeps:

- Nothing reads `objectsToRemove`, so `remove` only records the object: its bodies are never
  destroyed and it stays in `victims`.
- `AbstractBox.relative()` also makes `requiresRelative()` true, so a box with a relative size and
  no relative position still waits in `relativeObjects` for a world size.
- After an overrun the production build sleeps `frameWait - elapsed % frameWait`, which lies
  between 1 and a whole frame; on an exact multiple of the frame length it sleeps a whole frame.

## Model

| member | source | states |
|---|---|---|
| JavaLang.Add32 | app/src/main/java/com/pablisco/physics/PhysicsEngine.java:181 | `width + height` on Java ints: the mathematical sum whenever it fits in 32 bits |
| JavaLang.JavaDiv | app/src/main/java/com/pablisco/threads/FrameThread.java:104 | integer `/` throws ArithmeticException exactly on a zero divisor and otherwise truncates toward zero: for each of the four sign combinations the quotient is the quotient of the magnitudes with the sign of `a*b` |
| JavaLang.JavaRem | app/src/main/java/com/pablisco/threads/FrameThread.java:86 | integer `%` throws exactly on a zero divisor; otherwise its result has the sign of the dividend and is smaller in magnitude than the divisor |
| Vecs.Vec | app/src/main/java/com/pablisco/physics/Vecs.java:18-20 | `vec(a, b)` has x = a and y = b |
| Vecs.PairUpAt | app/src/main/java/com/pablisco/physics/Vecs.java:32-35 | pairing yields half as many vectors as entries, the e-th being (entries[2e], entries[2e+1]) |
| Vecs.PairsSpec | app/src/main/java/com/pablisco/physics/Vecs.java:28-37 | `vec2Array` throws IllegalArgumentException iff the entry count is odd, and otherwise returns every pair in order |
| Vecs.Vec2Array | app/src/main/java/com/pablisco/physics/Vecs.java:28-37 | the array-filling loop returns exactly what `Pairs` specifies: an odd count throws, an even one fills every slot e with (entries[2e], entries[2e+1]); an empty input gives an empty array |
| MeasurementUtil.PixelToMeters | app/src/main/java/com/pablisco/physics/MeasurementUtil.java:16-25 | pixels to metres: the result times 128 is the input |
| MeasurementUtil.MetersToPixel | app/src/main/java/com/pablisco/physics/MeasurementUtil.java:32-34 | metres to pixels: the result divided by 128 is the input |
| MeasurementUtil.PixelToMetersVec | app/src/main/java/com/pablisco/physics/MeasurementUtil.java:39-41 | each component is converted to metres on its own |
| MeasurementUtil.MetersToPixels | app/src/main/java/com/pablisco/physics/MeasurementUtil.java:46-48 | each component is converted to pixels on its own |
| MeasurementUtil.ScalarRoundTrips | app/src/main/java/com/pablisco/physics/MeasurementUtil.java:23-34 | the scalar conversions are inverse to each other in both directions |
| MeasurementUtil.VectorRoundTrips | app/src/main/java/com/pablisco/physics/MeasurementUtil.java:39-48 | the vector conversions are inverse to each other in both directions |
| Shapes.BoxShape | app/src/main/java/com/pablisco/physics/objects/Box.java:18-22 | Box's shape is a polygon box whose extents, converted back to pixels, are the width and height |
| Shapes.InsetChain | app/src/main/java/com/pablisco/physics/objects/InsetBox.java:23-33 | InsetBox's shape is a closed chain of 5 vertices (left,top), (right,top), (right,bottom), (left,bottom), (left,top), with count equal to the vertex count |
| Shapes.InsetChainNeverThrows | app/src/main/java/com/pablisco/physics/objects/InsetBox.java:25-31 | the ten entries InsetBox passes to `vec2Array` never make it throw |
| Backend.World.CreateBody | app/src/main/java/com/pablisco/physics/BasePhysicsObject.java:166 | `createBody` appends one body with no fixtures and returns a fresh live handle |
| Backend.World.CreateFixture | app/src/main/java/com/pablisco/physics/BasePhysicsObject.java:196 | `createFixture` appends the fixture to that body only |
| Backend.World.DestroyBody | app/src/main/java/com/pablisco/physics/BasePhysicsObject.java:173 | `destroyBody` makes the handle dead and records the call |
| Backend.World.Step | app/src/main/java/com/pablisco/physics/PhysicsEngine.java:89 | `step` is recorded with its arguments and changes no body |
| ShapeObjects.ShapeObject.Box | app/src/main/java/com/pablisco/physics/objects/AbstractBox.java:16-23 | a new Box has the field defaults (white, visible, at (0,0), no body, density 0.8, friction 0.7, restitution 0.8, dynamic, nothing relative) and edges at plus and minus half its width and height |
| ShapeObjects.ShapeObject.InsetBox | app/src/main/java/com/pablisco/physics/objects/InsetBox.java:17-20 | a new InsetBox is a Box of the same size whose paint is a stroke |
| ShapeObjects.InitialEdges | app/src/main/java/com/pablisco/physics/objects/AbstractBox.java:16-23 | a new box is centred: its edges span exactly its width and height, symmetrically; it has no body and requires nothing relative |
| ShapeObjects.ShapeObject.SetColor | app/src/main/java/com/pablisco/physics/BasePhysicsObject.java:48-51 | changes only the colour and returns the object itself |
| ShapeObjects.ShapeObject.SetVisible | app/src/main/java/com/pablisco/physics/BasePhysicsObject.java:53-56 | changes only the visibility and returns the object itself |
| ShapeObjects.ShapeObject.SetDensity | app/src/main/java/com/pablisco/physics/BasePhysicsObject.java:58-61 | changes only the density and returns the object itself |
| ShapeObjects.ShapeObject.SetFriction | app/src/main/java/com/pablisco/physics/BasePhysicsObject.java:63-66 | changes only the friction and returns the object itself |
| ShapeObjects.ShapeObject.SetRestitution | app/src/main/java/com/pablisco/physics/BasePhysicsObject.java:68-71 | changes only the restitution and returns the object itself |
| ShapeObjects.ShapeObject.SetPosition | app/src/main/java/com/pablisco/physics/BasePhysicsObject.java:73-76 | changes only the position and returns the object itself |
| ShapeObjects.ShapeObject.SetType | app/src/main/java/com/pablisco/physics/BasePhysicsObject.java:78-81 | changes only the body type and returns the object itself |
| ShapeObjects.ShapeObject.SetPositionXY | app/src/main/java/com/pablisco/physics/BasePhysicsObject.java:83-85 | sets the position to (x, y) and nothing else |
| ShapeObjects.ShapeObject.SetRelativePosition | app/src/main/java/com/pablisco/physics/BasePhysicsObject.java:95-98 | records the relative position and nothing else; afterwards the object requires relative resolution |
| ShapeObjects.ShapeObject.Relative | app/src/main/java/com/pablisco/physics/objects/AbstractBox.java:29-32 | sets the relative-size flag and nothing else; afterwards the object requires relative resolution |
| ShapeObjects.ShapeObject.BaseRequiresRelative | app/src/main/java/com/pablisco/physics/BasePhysicsObject.java:101-104 | true iff a relative position is pending |
| ShapeObjects.ShapeObject.RequiresRelative | app/src/main/java/com/pablisco/physics/objects/AbstractBox.java:35-37 | true iff a relative position or a relative size is pending |
| ShapeObjects.ShapeObject.BaseSetupRelative | app/src/main/java/com/pablisco/physics/BasePhysicsObject.java:107-120 | throws IllegalStateException, changing nothing, iff a body exists; otherwise resolves a pending relative position |
| ShapeObjects.ShapeObject.SetupRelative | app/src/main/java/com/pablisco/physics/objects/AbstractBox.java:40-47 | the base check comes first, so with a body it throws before the size is touched; otherwise it resolves the position and then a pending relative size |
| ShapeObjects.BaseResolvedSpec | app/src/main/java/com/pablisco/physics/BasePhysicsObject.java:112-119 | a pending relative position (rx, ry) becomes the position (w*rx, h*ry) and is cleared; with none pending nothing changes |
| ShapeObjects.ResolvedSpec | app/src/main/java/com/pablisco/physics/objects/AbstractBox.java:40-47 | after a normal setupRelative the box no longer requires relative resolution; a relative size becomes (W*width, H*height); with nothing pending nothing changes |
| ShapeObjects.ResolvedIdempotent | app/src/main/java/com/pablisco/physics/objects/AbstractBox.java:42-46 | a second setupRelative, with any size, changes nothing: a box is never rescaled twice |
| ShapeObjects.ResolvedKeepsTheRest | app/src/main/java/com/pablisco/physics/objects/AbstractBox.java:19-22 | setupRelative changes only the position, size and pending relative data; the edges keep their constructor values |
| ShapeObjects.ShapeObject.OnCreate | app/src/main/java/com/pablisco/physics/BasePhysicsObject.java:165-168 | adds exactly one body, built from the object's state before the call, whose handle the object now holds; nothing else of the object changes |
| ShapeObjects.ShapeObject.OnBodyCreation | app/src/main/java/com/pablisco/physics/BasePhysicsObject.java:191-197 | records the handle and attaches one fixture from `defineFixture` to that body |
| ShapeObjects.ShapeObject.OnDestroy | app/src/main/java/com/pablisco/physics/BasePhysicsObject.java:171-175 | destroys the body iff there is one and leaves the `body` field set |
| ShapeObjects.CreationRecordSpec | app/src/main/java/com/pablisco/physics/BasePhysicsObject.java:177-209 | the body onCreate adds has the configured type, is active, sits at the position in metres, and has one fixture with the configured density, friction, restitution and the concrete class's shape |
| ShapeObjects.CreateShapeSpec | app/src/main/java/com/pablisco/physics/objects/ShapeObject.java:20-31 | the fixture's shape is Box's box over the current (possibly scaled) width and height in metres, or InsetBox's chain over the raw edges |
| Objects.SetupOutcome | app/src/main/java/com/pablisco/physics/BasePhysicsObject.java:108-111 | forwarding setupRelative returns normally iff no shape object has a body, and otherwise throws IllegalStateException |
| Objects.PhysicsObject.RequiresRelative | app/src/main/java/com/pablisco/physics/PhysicsObject.java:17-21 | true iff some shape object of the tree requires relative resolution |
| Objects.PhysicsObject.SetupRelative | app/src/main/java/com/pablisco/physics/PhysicsObject.java:23-29 | resolves every shape object before the first one that has a body and leaves that one and the rest unchanged; throws iff there is such a one; when it returns normally the object no longer requires relative resolution |
| Objects.PhysicsObject.OnAttach | app/src/main/java/com/pablisco/physics/PhysicsObject.java:41-47 | reaches every shape object of the tree, in order |
| Objects.PhysicsObject.OnCreate | app/src/main/java/com/pablisco/physics/PhysicsObject.java:49-55 | creates one body per shape object, in forwarding order, with consecutive fresh handles, each held by its shape object |
| Objects.PhysicsObject.OnDestroy | app/src/main/java/com/pablisco/physics/PhysicsObject.java:57-64 | destroys the bodies of the shape objects that have one, in forwarding order, and no others; every body a shape object of the tree holds is dead afterwards |
| Objects.CompoundObject.constructor | app/src/main/java/com/pablisco/physics/objects/CompoundObject.java:20-22 | the children are fixed at construction and the tree's shape objects are theirs, in order |
| Objects.CompoundObject.RequiresRelative | app/src/main/java/com/pablisco/physics/objects/CompoundObject.java:25-34 | the loop with early exit answers true iff some child requires relative resolution |
| Objects.CompoundObject.SetupRelative | app/src/main/java/com/pablisco/physics/objects/CompoundObject.java:37-41 | forwarding to the children in order gives exactly `SetupAll` and `SetupOutcome` over the compound's shape objects |
| Objects.CompoundObject.ForwardSetup | app/src/main/java/com/pablisco/physics/objects/CompoundObject.java:38-40 | one child's setupRelative either extends the resolved prefix past its segment or throws at the first body |
| Objects.CompoundObject.OnAttach | app/src/main/java/com/pablisco/physics/objects/CompoundObject.java:51-55 | forwarding in order reaches the compound's shape objects in order |
| Objects.CompoundObject.OnCreate | app/src/main/java/com/pablisco/physics/objects/CompoundObject.java:58-62 | forwarding in order creates the bodies of the children's shape objects in order, with consecutive handles |
| Objects.CompoundObject.CreateChild | app/src/main/java/com/pablisco/physics/objects/CompoundObject.java:59-61 | the i-th turn of the loop: child i's shape objects receive the next consecutive handles, one creation record each built from their states before the loop; the destroyed log and the steps do not change |
| Objects.CompoundObject.ForwardCreate | app/src/main/java/com/pablisco/physics/objects/CompoundObject.java:59-61 | one child's onCreate gives bodies to its own segment and changes no other shape object |
| Objects.CompoundObject.OnDestroy | app/src/main/java/com/pablisco/physics/objects/CompoundObject.java:65-69 | forwarding in order destroys the children's bodies in order |
| Objects.CompoundObject.ForwardDestroy | app/src/main/java/com/pablisco/physics/objects/CompoundObject.java:66-68 | one child's onDestroy extends the destroyed prefix by its segment |
| Objects.SetupStep | app/src/main/java/com/pablisco/physics/objects/CompoundObject.java:38-40 | one child's setupRelative, seen on all shape objects, throws iff the first body lies in its segment, and then the whole result is `SetupAll` |
| Objects.SetupStepAt | app/src/main/java/com/pablisco/physics/objects/CompoundObject.java:38-40 | after one more child's setupRelative, each shape object is resolved iff it lies before the first body and before the end of that child's segment; all others keep their state |
| Objects.SetupPassClears | app/src/main/java/com/pablisco/physics/PhysicsObject.java:23-29 | once setupRelative returns normally, no shape object of the tree requires relative resolution |
| Objects.SetupAgain | app/src/main/java/com/pablisco/physics/BasePhysicsObject.java:112-119 | after a setupRelative that returns normally, a second one returns normally and changes nothing, whatever the size |
| Objects.CreateStep | app/src/main/java/com/pablisco/physics/objects/CompoundObject.java:59-61 | one child's onCreate, seen on all shape objects, extends the created prefix by its segment |
| Objects.CreateWorldStep | app/src/main/java/com/pablisco/physics/objects/CompoundObject.java:59-61 | one child's bodies and handles follow those of the children before it |
| Objects.DestroyStep | app/src/main/java/com/pablisco/physics/objects/CompoundObject.java:66-68 | one child's destroyed handles follow those of the children before it |
| Objects.CreatedLeaves | app/src/main/java/com/pablisco/physics/objects/CompoundObject.java:58-62 | after onCreate every shape object of the tree holds a body among the new ones, that body is the one built from the shape object's own recorded state, and the shape object is otherwise unchanged |
| Objects.HandlesAppend | app/src/main/java/com/pablisco/physics/objects/CompoundObject.java:65-69 | destroying two runs of shape objects destroys the handles of the first run, then those of the second |
| Objects.HandlesHas | app/src/main/java/com/pablisco/physics/BasePhysicsObject.java:171-175 | every handle a shape object holds is among the handles forwarding onDestroy destroys |
| Objects.HandlesHeld | app/src/main/java/com/pablisco/physics/BasePhysicsObject.java:171-175 | every handle forwarding onDestroy destroys is held by one of the shape objects |
| Objects.HeldHandlesDestroyed | app/src/main/java/com/pablisco/physics/PhysicsObject.java:57-64 | onDestroy reaches every handle any shape object of the tree holds |
| Objects.WithBodiesHandleSet | app/src/main/java/com/pablisco/physics/BasePhysicsObject.java:165-168 | after onCreate the shape objects hold exactly the handles it created |
| Objects.DestroyUndoesCreate | app/src/main/java/com/pablisco/physics/PhysicsObject.java:49-64 | onDestroy after onCreate destroys exactly the handles onCreate created, so every body it added is dead, and the live handles are those from before onCreate |
| Frames.SleepFor | app/src/main/java/com/pablisco/threads/FrameThread.java:89-94 | `Thread.sleep` of a negative pause throws IllegalArgumentException; otherwise the pause is the one asked for |
| Frames.Pace | app/src/main/java/com/pablisco/threads/FrameThread.java:74-91 | the overrun check, the debug subtraction loop and the production remainder compute exactly `Paced` |
| Frames.SkippedFrames | app/src/main/java/com/pablisco/threads/FrameThread.java:79-83 | the debug loop counts (elapsed - 1) / frameWait skipped frames |
| Frames.PacedBounds | app/src/main/java/com/pablisco/threads/FrameThread.java:74-91 | with a positive frame length the pause never throws and lies in [0, frameWait]: frameWait - elapsed without an overrun, at least 1 in production, and in debug what is left of the frame the overrun ends in |
| Frames.PacedOnMultiples | app/src/main/java/com/pablisco/threads/FrameThread.java:79-86 | on an exact multiple k of the frame length the debug build sleeps 0 after k - 1 skips while production sleeps a whole frame |
| Frames.PacedDegenerateWait | app/src/main/java/com/pablisco/threads/FrameThread.java:86 | with frameWait 0 an overrun divides by zero in production; with a negative frameWait the pause is negative and `Thread.sleep` throws |
| Frames.FrameWaitFor | app/src/main/java/com/pablisco/threads/FrameThread.java:104 | `1000 / rate` throws iff the rate is 0; for rates 1..1000 it lies in [1, 1000] with wait * rate <= 1000; for rates -1000..-1 it lies in [-1000, -1] with wait * rate <= 1000; beyond 1000 either way it is 0 |
| Frames.FrameThread.constructor | app/src/main/java/com/pablisco/threads/FrameThread.java:28 | the thread field starts non-null, with no frame length yet |
| Frames.FrameThread.Start | app/src/main/java/com/pablisco/threads/FrameThread.java:102-115 | a rate of 0 throws before any field changes; otherwise the frame length is `1000 / rate` milliseconds and the frame time that length in seconds |
| Frames.FrameThread.StartDefault | app/src/main/java/com/pablisco/threads/FrameThread.java:120-122 | the default rate of 60 gives 16-millisecond frames |
| Frames.FrameThread.Stop | app/src/main/java/com/pablisco/threads/FrameThread.java:127-131 | clears the thread field and nothing else |
| Frames.FrameThread.Run | app/src/main/java/com/pablisco/threads/FrameThread.java:66-96 | one frame call per turn while the thread is set, each followed by the `Paced` pause; a throwing sleep ends the loop; a stopped thread runs no frame |
| Engine.RemoveFirstAbsent | app/src/main/java/com/pablisco/physics/PhysicsEngine.java:100 | `victims.remove` of an object not in the list leaves it unchanged |
| Engine.RemoveFirstAt | app/src/main/java/com/pablisco/physics/PhysicsEngine.java:100 | `victims.remove` cuts out exactly the first occurrence |
| Engine.RemoveFirstCount | app/src/main/java/com/pablisco/physics/PhysicsEngine.java:100 | `victims.remove` takes out exactly one copy of the object when there is one |
| Engine.RemoveEachCount | app/src/main/java/com/pablisco/physics/PhysicsEngine.java:97-101 | removing a run of objects takes out one copy of each, as far as there are copies |
| Engine.FirstBodiedFromSameBodies | app/src/main/java/com/pablisco/physics/BasePhysicsObject.java:108-119 | resolution never changes a body, so the first shape object with a body is the same before and after any resolutions |
| Engine.RecordedBodies | app/src/main/java/com/pablisco/physics/BasePhysicsObject.java:108-111 | setupRelative on the recorded states returns normally iff none of the shape objects had a body |
| Engine.SetupLeaves | app/src/main/java/com/pablisco/physics/objects/CompoundObject.java:37-41 | setupRelative on partly resolved shape objects: its outcome and first body are those of the recorded states, and afterwards exactly the already resolved ones and those before the first body hold their resolved recorded state |
| Engine.PhysicsEngine.constructor | app/src/main/java/com/pablisco/physics/PhysicsEngine.java:122-124 | an empty world with gravity (0, 9.8), empty queues, size 0 by 0, and the given frame rate |
| Engine.PhysicsEngine.Start | app/src/main/java/com/pablisco/physics/PhysicsEngine.java:129-131 | a rate of 0 throws before the frame thread changes; otherwise the thread runs with `frameWait = 1000 / rate` milliseconds and `frameTime` that length in seconds |
| Engine.PhysicsEngine.Stop | app/src/main/java/com/pablisco/physics/PhysicsEngine.java:136-138 | stops the frame thread; its frame length and frame time stay as they were |
| Engine.PhysicsEngine.Add | app/src/main/java/com/pablisco/physics/PhysicsEngine.java:177-190 | attaches the object first; resolves it iff the 32-bit `width + height` is positive; then appends it to exactly one queue, `relativeObjects` iff it still requires relative resolution; a throwing setupRelative leaves both queues unchanged |
| Engine.PhysicsEngine.SetupAndRoute | app/src/main/java/com/pablisco/physics/PhysicsEngine.java:181-188 | setupRelative runs iff the 32-bit size sum is positive and then gives `SetupAll` and `SetupOutcome`; a throw leaves both queues unchanged; otherwise the object goes to exactly one queue, `relativeObjects` iff it still requires relative resolution |
| Engine.PhysicsEngine.SetupIfSized | app/src/main/java/com/pablisco/physics/PhysicsEngine.java:181-183 | setupRelative runs iff the 32-bit sum of the sizes is positive; otherwise nothing changes |
| Engine.PhysicsEngine.Enqueue | app/src/main/java/com/pablisco/physics/PhysicsEngine.java:184-188 | the object goes to the tail of exactly one queue, chosen by requiresRelative |
| Engine.PhysicsEngine.Remove | app/src/main/java/com/pablisco/physics/PhysicsEngine.java:198-201 | only appends to `objectsToRemove`; nothing else changes |
| Engine.PhysicsEngine.SetWorldSize | app/src/main/java/com/pablisco/physics/PhysicsEngine.java:159-168 | records the size; returns normally iff no queued shape object has a body, and then drains `relativeObjects` in FIFO order onto `objectsToAdd`, attaching each object again, with every queued shape object resolved against the new size and none requiring relative resolution; otherwise throws IllegalStateException at the first queued object `failed` holding a body: the objects before it are re-added, it is off the queue and lost, those after it stay queued, and exactly the shape objects before the first body are resolved, the rest unchanged |
| Engine.PhysicsEngine.DrainRelative | app/src/main/java/com/pablisco/physics/PhysicsEngine.java:160-166 | the new size and the drain loop, against the states recorded before it: the same outcome, queues, attached trace and resolved states as `setWorldSize` |
| Engine.PhysicsEngine.ResolveTurn | app/src/main/java/com/pablisco/physics/PhysicsEngine.java:162-166 | turn k either moves object k to `objectsToAdd` with all its shape objects resolved, or throws at its first body, resolving exactly its shape objects before that body; either way object k is off the queue |
| Engine.PhysicsEngine.ResolveNext | app/src/main/java/com/pablisco/physics/PhysicsEngine.java:163-165 | one turn: the head leaves the queue; its setupRelative throws IllegalStateException iff one of its recorded shape objects has a body, and the resolved shape objects grow by those before that body (all of them on success); on success the head is appended to `objectsToAdd` and attached again, on a throw both stay as they were |
| Engine.PhysicsEngine.SetupHead | app/src/main/java/com/pablisco/physics/PhysicsEngine.java:164 | the head's setupRelative against the recorded size gives `SetupAll` and `SetupOutcome` of its states, which equal those of its recorded states; it resolves exactly the head's shape objects before the first body, and on success none requires relative resolution |
| Engine.PhysicsEngine.DropHead | app/src/main/java/com/pablisco/physics/PhysicsEngine.java:163 | the poll removes only the head of `relativeObjects` and changes no shape object |
| Engine.PhysicsEngine.AddResolved | app/src/main/java/com/pablisco/physics/PhysicsEngine.java:165 | re-adding a just-resolved object returns normally, changes no shape object, attaches it again and appends it to `objectsToAdd`, with `relativeObjects` untouched |
| Engine.PhysicsEngine.CreatePendingObjects | app/src/main/java/com/pablisco/physics/PhysicsEngine.java:108-114 | empties `objectsToAdd` in FIFO order onto `victims`, creating one body per shape object in queue order; every such shape object then holds a live new body, built from that shape object's own state before the call, and is otherwise unchanged |
| Engine.PhysicsEngine.CreateAll | app/src/main/java/com/pablisco/physics/PhysicsEngine.java:109-113 | the create loop against the states recorded before it: the same queues, bodies, live handles and per-shape-object bodies as `createPendingObjects` |
| Engine.PhysicsEngine.CreateTurn | app/src/main/java/com/pablisco/physics/PhysicsEngine.java:109-113 | one turn extends the created prefix of the queue by its head: the bodies grow by those built from the head's shape objects, and every shape object of the prefix holds a body built from its own recorded state |
| Engine.PhysicsEngine.CreateNext | app/src/main/java/com/pablisco/physics/PhysicsEngine.java:110-112 | poll the head, create it, append it to `victims`; each shape object of the head holds a new body built from its own recorded state, and those created earlier keep theirs |
| Engine.PhysicsEngine.CreateHead | app/src/main/java/com/pablisco/physics/PhysicsEngine.java:111 | `victim.onCreate(world)`: the world gains one body per shape object of the victim, each shape object holds the one built from its own recorded state, and bodies held by shape objects created earlier are untouched |
| Engine.PhysicsEngine.DeleteStaleObjects | app/src/main/java/com/pablisco/physics/PhysicsEngine.java:96-102 | as written: empties `objectsToAdd` (not `objectsToRemove`), destroying the bodies of those objects and removing each from `victims`; with `objectsToAdd` empty it changes nothing |
| Engine.PhysicsEngine.DeleteTurn | app/src/main/java/com/pablisco/physics/PhysicsEngine.java:97-101 | one turn extends the destroyed prefix of the queue by its head |
| Engine.PhysicsEngine.DestroyNext | app/src/main/java/com/pablisco/physics/PhysicsEngine.java:98-100 | poll the head of `objectsToAdd`, destroy its bodies, remove it from `victims` |
| Engine.PhysicsEngine.Frame | app/src/main/java/com/pablisco/physics/PhysicsEngine.java:86-90 | create, then the delete pass, which finds `objectsToAdd` empty and destroys nothing, then one step with 6 and 6 iterations; every shape object that was queued holds a live body built from its own state before the frame; `objectsToRemove` is untouched and `victims` only grows |
| Engine.PhysicsEngine.FinishFrame | app/src/main/java/com/pablisco/physics/PhysicsEngine.java:88-89 | with `objectsToAdd` empty the delete pass changes nothing, and the step only logs the call: no body, live handle or shape object changes, so each created shape object still holds the body built from its recorded state |

## Left out

- Threads: `FrameThread` creates no thread here. `run()` is a loop over a finite sequence of frame durations, which stand in for `currentTimeMillis`. `Thread.sleep` is its output pause. The caller's thread and the frame thread are not interleaved, and the concurrent collections are plain sequences.
- Frames.FrameThread.Run: `onStart` (naming the thread, its priority, `world.setAllowSleep(true)`) and the swallowed `InterruptedException` are not modelled; the loop runs over the durations given instead of forever.
- Frames.FrameThread.Start: the daemon flag, the debug warning about a running thread and `thread.start()` are not modelled; `running` stands for `thread != null`.
- Frames.Pace: requires a positive `frameWait` for a debug-build overrun, because with `frameWait <= 0` the Java subtraction loop never ends.
- Logging (`Log.d`, `Log.i`, `Log.w`) and the `DEBUG` build flag, which is a parameter.
- Drawing: `drawWorld`, `draw`, `onDraw`, Canvas and the Paint beyond its colour and style. `draw` also overwrites the cached position from the body; that is rendering-side.
- jbox2d itself: gravity, the solver, `World.step`, and the meaning of `setAsBox` and `createChain`. Bodies, shapes and fixture definitions are opaque records, and a body's pose never changes in the model.
- Floating point: positions, sizes, fractions and `frameTime = frameWait / 1000f` are reals, with no rounding.
- ShapeObjects.ShapeObject.OnCreate: `World.createBody` cannot fail in the model, so an exception from the backend, which would stop a compound's forwarding, is not modelled.
- Objects.CompoundObject.constructor: requires the children to share no shape object and to form a tree. The source does not check this; with sharing, forwarding would visit a shape object twice. `createChildren()` is the constructor's argument.
- Objects.PhysicsObject.OnAttach: the engine argument is not modelled; the ghost result lists the shape objects reached.
- Engine.PhysicsEngine.Add: requires the object to be a well-formed tree (`Valid`), which every object built with the constructors is.
- Engine.PhysicsEngine.constructor: the anonymous `FrameThread` subclass is the `stepThread` field; its `frame` override is `Frame`.
- PhysicsView.java, MainActivity.java and GameActivity.java are not part of this model. PhysicsView calls a no-argument `PhysicsEngine` constructor, which the engine does not have.
- `getBody`, `getPaint` and `self()` are plain accessors with nothing to state.
