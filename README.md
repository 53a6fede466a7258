# color_lab: the fluid-simulation driver and the lab devices, in Dafny

This project models the discrete logic of the color_lab laboratory and proves properties of it. The logic has two halves.

**The WebGL fluid simulation** (`color_lab/fluid_simulation/js/script.js`):

- Shader arithmetic is not modelled. A texture's content is a symbolic term: the kernel that drew it, applied to the textures it sampled.
- `Graphics.Gpu` is the WebGL context. It keeps a texture store, a command history and the next handle to be allocated.
- `Graphics.DoubleFbo` is the object `createDoubleFBO` returns: a read/write pair of framebuffers that `swap` exchanges.
- `FluidSimulation.Simulation` is the frame driver. It holds the config, the canvas, the five framebuffer fields, the splat stack, the pointer list and the clock.
  - Each method is proved against a pure schedule in module `Schedule`, and lemmas in that module state the properties.
  - Examples: which framebuffer each pass samples and renders into, how many swaps one `step` makes, and that no pass samples the framebuffer it renders into.
- The smaller helpers are functions or small methods proved against functions:
  - the aspect-ratio rules and `getResolution`;
  - `generateColor`;
  - `hashCode` with its 32-bit wrap-around;
  - `addKeywords` and the program cache of `Material.setKeywords`;
  - `getSupportedFormat`;
  - `normalizeTexture` on a byte array;
  - the pointer records and their three updates.

**The lab side in Python:**

- `DeviceClients.DeviceClient` is the socket client of the devices. The server is an oracle: its reply to the n-th command is a fixed function of n and the command.
- The three devices are classes that update container metadata (`Containers.Container`) and the robot arm's location in place. They are the colour mixer, the cleaning station and the robot arm.
- `device_drivers.py` is split in three:
  - The WebSocket message shapes and the server's message queue and colour slot (`SimulationLinks`).
  - The message sequence of `ColorMixerDriver.mix` and the analyzer (`LabDrivers`). `mix` is proved against a pure function `MixMessages`, including its `ZeroDivisionError` path.
  - The per-line dispatch loop of `handle_device` and the port map of `FluidSimulationManager` (`DeviceHosting`).

**Where the model follows the code rather than its evident intent:**

- `initFramebuffers` paints `dye.read` white on every call, so re-initialising after a resize does not keep the dye (script.js:1126). The velocity read buffer is carried over by `resizeDoubleFBO`.
- The mousedown handler falls back to a new pointer when none has id -1 (script.js:1473-1474), and would never store it in `pointers`. The only pointer is the start-up one, whose id is always -1 (`FluidSimulation.Simulation.Valid`), so the model never takes that branch.
- The mousemove handler splats at once and leaves `moved` set, so the next `applyInputs` splats the same splat again (`FluidSimulation.MoveSplatsAgain`).
- `setKeywords` keys its cache by the sum of the keyword hashes. Two keyword sets whose hashes collide share one program (`ShaderKeywords.CollidingKeywordsShareProgram`).

## Model

| member | source | states |
|---|---|---|
| JsNumbers.ToInt32 | color_lab/fluid_simulation/js/script.js:1652 | `x \| 0` yields a value in [-2^31, 2^31) congruent to x modulo 2^32 |
| JsNumbers.ToInt32Congruent | color_lab/fluid_simulation/js/script.js:1652 | ToInt32 depends only on the residue modulo 2^32 |
| JsNumbers.ToInt32OfInt32 | color_lab/fluid_simulation/js/script.js:1652 | a value already in 32-bit range is left unchanged |
| JsNumbers.ShiftLeft5 | color_lab/fluid_simulation/js/script.js:1651 | `h << 5` is a 32-bit value congruent to 32·h modulo 2^32 |
| JsNumbers.Round | color_lab/fluid_simulation/js/script.js:1628-1629 | Math.round is the integer within (x-0.5, x+0.5], ties rounded up |
| JsNumbers.RoundMonotone | color_lab/fluid_simulation/js/script.js:1628-1629 | Math.round is monotone |
| JsNumbers.RoundOfInt | color_lab/fluid_simulation/js/script.js:1628-1629 | Math.round leaves a whole number unchanged |
| JsNumbers.ScaleByPixelRatio | color_lab/fluid_simulation/js/script.js:1642-1645 | the floor of input × ratio, with a ratio of 0 (falsy) replaced by 1 |
| JsNumbers.ScaleAtUnitRatio | color_lab/fluid_simulation/js/script.js:1642-1645 | whole lengths are unchanged at ratio 1 and when no ratio is reported |
| JsNumbers.ScaleMonotone | color_lab/fluid_simulation/js/script.js:1642-1645 | a longer length never scales to fewer device pixels |
| JsNumbers.Clamp01 | color_lab/fluid_simulation/js/script.js:373-375 | the result lies in [0, 1]: x inside, 0 below, 1 above |
| JsNumbers.Trunc | color_lab/fluid_simulation/js/script.js:362-365 | truncation toward zero: within one below a non-negative value, within one above a negative one |
| JsNumbers.ToUint8 | color_lab/fluid_simulation/js/script.js:362-365 | a Uint8Array store keeps the truncated value modulo 256 |
| JsNumbers.ToUint8InRange | color_lab/fluid_simulation/js/script.js:362-365 | for a value in [0, 256) the stored byte is its floor |
| Aspect.CorrectRadius | color_lab/fluid_simulation/js/script.js:1464-1468 | on a wide canvas the radius is multiplied by width/height; otherwise it is unchanged; it never shrinks |
| Aspect.CorrectDeltaX | color_lab/fluid_simulation/js/script.js:1538-1542 | on a tall canvas the delta is multiplied by width/height; otherwise it is unchanged |
| Aspect.CorrectDeltaY | color_lab/fluid_simulation/js/script.js:1544-1548 | on a wide canvas the delta is divided by width/height; otherwise it is unchanged |
| Aspect.CorrectedDeltasShrink | color_lab/fluid_simulation/js/script.js:1538-1548 | corrections never amplify a delta and keep it zero exactly when it was zero |
| Aspect.GetResolution | color_lab/fluid_simulation/js/script.js:1624-1633 | the shorter side gets round(resolution), the longer side round(resolution·aspect), along the buffer's wider axis (height on a tie) |
| Aspect.GetResolutionOrientation | color_lab/fluid_simulation/js/script.js:1624-1633 | the wider axis gets at least as many cells; a square buffer gives a square grid |
| Aspect.GetResolutionTranspose | color_lab/fluid_simulation/js/script.js:1624-1633 | turning a non-square buffer swaps the two grid dimensions |
| Colors.GenerateColor | color_lab/fluid_simulation/js/script.js:1550-1571 | each known category lowers its channel by intensity/100 (Black lowers all three equally); unknown categories and intensity 0 give white; intensity in [0,100] keeps every channel in [0,1] |
| Formats.FallbackChain | color_lab/fluid_simulation/js/script.js:125-141 | the requested format is tried first |
| Formats.FirstSupported | color_lab/fluid_simulation/js/script.js:125-141 | the reference meaning: the first supported format of a chain, with every earlier one unsupported, or None exactly when none is supported |
| Formats.GetSupportedFormat | color_lab/fluid_simulation/js/script.js:125-141 | the recursive fallback R16F → RG16F → RGBA16F → null equals the first supported entry of the fallback chain |
| Capture.NormalizedByteValue | color_lab/fluid_simulation/js/script.js:362-365 | each stored channel is floor(clamp01(x)·255), in [0, 255] |
| Capture.StorePixel | color_lab/fluid_simulation/js/script.js:362-366 | the four channels are stored at one offset and nothing else changes |
| Capture.PixelStored | color_lab/fluid_simulation/js/script.js:360-367 | storing the next pixel extends the flipped prefix of the row by four channels |
| Capture.FlipRow | color_lab/fluid_simulation/js/script.js:360-368 | output row i becomes input row height-1-i, normalised; no other element changes |
| Capture.NormalizeTexture | color_lab/fluid_simulation/js/script.js:357-371 | a fresh array of the input's length in which every row i is input row height-1-i, normalised to bytes |
| ShaderKeywords.CharUnits | color_lab/fluid_simulation/js/script.js:1651 | a Basic Multilingual Plane character is its own code unit; any other is a high and a low surrogate that recombine to its code point |
| ShaderKeywords.CodeUnits | color_lab/fluid_simulation/js/script.js:1650-1651 | the UTF-16 units `charCodeAt` reads: at least one per character, each below 2^16 |
| ShaderKeywords.CodeUnitsOfBmp | color_lab/fluid_simulation/js/script.js:1650-1651 | a string without astral characters has exactly its characters' codes as units |
| ShaderKeywords.HashOfUnits | color_lab/fluid_simulation/js/script.js:1647-1655 | the fold over code units starts at 0 and stays in [-2^31, 2^31) |
| ShaderKeywords.HashOf | color_lab/fluid_simulation/js/script.js:1647-1655 | the empty string hashes to 0 and every hash lies in [-2^31, 2^31) |
| ShaderKeywords.HashOfAstral | color_lab/fluid_simulation/js/script.js:1650-1653 | U+1F600 is hashed as its two surrogates 0xD83D, 0xDE00, not as its code point |
| ShaderKeywords.HashStep | color_lab/fluid_simulation/js/script.js:1650-1653 | one loop step `((h << 5) - h + c) \| 0` equals ToInt32(31·h + c) |
| ShaderKeywords.HashCode | color_lab/fluid_simulation/js/script.js:1647-1655 | the loop over `str.length` code units computes HashOf |
| ShaderKeywords.HashCollision | color_lab/fluid_simulation/js/script.js:1647-1655 | "Aa" and "BB" have the same hash, 2112 |
| ShaderKeywords.DefinesAppend | color_lab/fluid_simulation/js/script.js:475-482 | the `#define` block of a concatenation of keyword lists is the concatenation of their blocks |
| ShaderKeywords.AddKeywords | color_lab/fluid_simulation/js/script.js:475-482 | a null list leaves the source alone; otherwise one `#define` line per keyword, in order, comes before it |
| ShaderKeywords.SumOfHashes | color_lab/fluid_simulation/js/script.js:409-410 | the cache key is the sum of the keyword hashes |
| ShaderKeywords.Material.constructor | color_lab/fluid_simulation/js/script.js:400-406 | the cache is empty and no program is active |
| ShaderKeywords.Material.SetKeywords | color_lab/fluid_simulation/js/script.js:408-423 | a cached hash reuses its program and compiles nothing; a miss compiles and caches exactly one new program; either way that program becomes active |
| ShaderKeywords.CollidingKeywordsShareProgram | color_lab/fluid_simulation/js/script.js:408-423 | after ["Aa"] then ["BB"], the active program is still the one compiled with `#define Aa` |
| Pointers.Down | color_lab/fluid_simulation/js/script.js:1510-1522 | down and not moved, position normalised with y flipped, previous position equal to it, zero deltas, the new colour |
| Pointers.Move | color_lab/fluid_simulation/js/script.js:1524-1532 | the old position becomes the previous one; the deltas are the aspect-corrected differences; moved iff a delta is non-zero; id, down and colour kept |
| Pointers.Up | color_lab/fluid_simulation/js/script.js:1534-1536 | only `down` changes, to false |
| Pointers.MovedIffPositionChanged | color_lab/fluid_simulation/js/script.js:1524-1532 | a move counts as moved exactly when the normalised position changed |
| Pointers.MoveAfterDown | color_lab/fluid_simulation/js/script.js:1510-1532 | a move right after a pointer-down measures its delta from the pointer-down position |
| Pointers.UpdatesKeepColored | color_lab/fluid_simulation/js/script.js:1510-1536 | a pointer that is down or has an unconsumed move always has a colour, whatever update comes next |
| Pointers.Pointer.constructor | color_lab/fluid_simulation/js/script.js:54-65 | the prototype record: id -1, zero coordinates and deltas, not down, not moved |
| Pointers.Pointer.UpdateDown | color_lab/fluid_simulation/js/script.js:1510-1522 | the record becomes Down of its old state |
| Pointers.Pointer.UpdateMove | color_lab/fluid_simulation/js/script.js:1524-1532 | the record becomes Move of its old state |
| Pointers.Pointer.UpdateUp | color_lab/fluid_simulation/js/script.js:1534-1536 | the record becomes Up of its old state |
| Graphics.Gpu.CreateFbo | color_lab/fluid_simulation/js/script.js:1129-1161 | a fresh, cleared framebuffer of size w × h with texel size 1/w by 1/h |
| Graphics.Gpu.constructor | color_lab/fluid_simulation/js/script.js:71 | a fresh context: no textures, no commands, handles start at 0 |
| Graphics.Gpu.Draw | color_lab/fluid_simulation/js/script.js:1038-1062 | a pass re-draws only its target, whose content becomes the kernel applied to the sampled textures; no handle is allocated |
| Graphics.Gpu.DrawToScreen | color_lab/fluid_simulation/js/script.js:1038-1062 | a pass to the canvas changes no framebuffer |
| Graphics.Gpu.DeleteFbo | color_lab/fluid_simulation/js/script.js:571-572 | the texture is removed from the store and nothing else changes |
| Graphics.DoubleFbo.constructor | color_lab/fluid_simulation/js/script.js:1163-1190 | two fresh, distinct, cleared framebuffers; the first is read and the second is written; the size and texel size are those of the first |
| Graphics.DoubleFbo.Swap | color_lab/fluid_simulation/js/script.js:1184-1188 | read and write change places; size and texel size are unchanged |
| Graphics.DoubleFbo.Resize | color_lab/fluid_simulation/js/script.js:1200-1209 | an unchanged size does nothing; otherwise read becomes a fresh copy of the old read, write becomes a fresh cleared buffer, and size and texel size take the new values |
| Schedule.SwappedTwice | color_lab/fluid_simulation/js/script.js:1184-1188 | two swaps restore the original roles |
| Schedule.JacobiShape | color_lab/fluid_simulation/js/script.js:1331-1335 | iteration i samples divergence and the pressure read buffer after i swaps, and renders into that pair's write buffer |
| Schedule.JacobiFeedbackFree | color_lab/fluid_simulation/js/script.js:1331-1335 | no Jacobi pass samples the buffer it renders into |
| Schedule.JacobiCount | color_lab/fluid_simulation/js/script.js:1331-1335 | the loop draws exactly PRESSURE_ITERATIONS times |
| Schedule.BlurShape | color_lab/fluid_simulation/js/script.js:1404-1420 | 2·iterations passes, feedback-free, the last one rendering back into the target |
| Schedule.BlurCount | color_lab/fluid_simulation/js/script.js:1404-1420 | a blur makes 2·iterations commands, all of them draws |
| Schedule.StepPhases | color_lab/fluid_simulation/js/script.js:1295-1377 | the five phases of `step` in order make up the step's schedule |
| Schedule.StepRolesParity | color_lab/fluid_simulation/js/script.js:1295-1377 | after a step velocity is as it was, dye is exchanged, pressure is exchanged iff PRESSURE_ITERATIONS is even, and all eight buffers stay distinct |
| Schedule.StepFeedbackFree | color_lab/fluid_simulation/js/script.js:1295-1377 | no pass of a step samples the framebuffer it renders into |
| Schedule.StepDrawCount | color_lab/fluid_simulation/js/script.js:1295-1377 | a step makes 13 + PRESSURE_ITERATIONS commands, 11 + PRESSURE_ITERATIONS of them draws |
| Schedule.FixedPhaseCounts | color_lab/fluid_simulation/js/script.js:1300-1373 | curl/vorticity, vortex force, divergence/clear and gradient/advection draw 2, 2, 2 and 3 times |
| Schedule.SplatsAppend | color_lab/fluid_simulation/js/script.js:1428-1437 | a run of splats after another starts from the roles the first run leaves |
| Schedule.SplatsShape | color_lab/fluid_simulation/js/script.js:1439-1462 | each splat renders exactly twice, never into a buffer it samples |
| Schedule.SplatsKeepDistinct | color_lab/fluid_simulation/js/script.js:1439-1462 | splats only swap pairs, so the eight framebuffers stay distinct |
| Schedule.ReinitSteps | color_lab/fluid_simulation/js/script.js:1105-1126 | resizing dye and velocity, then replacing the projection buffers and painting dye.read, makes up the re-initialisation schedule and roles |
| Schedule.ReinitDistinct | color_lab/fluid_simulation/js/script.js:1093-1127 | re-initialising keeps the eight framebuffers distinct, and divergence, curl and pressure never reuse an existing framebuffer |
| Schedule.ClearTwice | color_lab/fluid_simulation/js/script.js:1494-1500 | one clearScreen whitens dye.read; two in a row whiten both dye buffers |
| FluidSimulation.DeltaTime | color_lab/fluid_simulation/js/script.js:1265-1271 | dt is the elapsed time in seconds capped at 0.016666; it is positive when time has passed |
| FluidSimulation.RandomSplats | color_lab/fluid_simulation/js/script.js:1428-1437 | exactly `amount` splats; the i-th draws random values 4i to 4i+3 |
| FluidSimulation.RandomSplatsBounds | color_lab/fluid_simulation/js/script.js:1431-1434 | with Math.random in [0,1), every random splat lies on the canvas and pushes by less than 500 each way |
| FluidSimulation.DownSplatIsStill | color_lab/fluid_simulation/js/script.js:1470-1478 | the mousedown splat lays the new colour at the pressed point and pushes nothing |
| FluidSimulation.MoveSplatsAgain | color_lab/fluid_simulation/js/script.js:1480-1488 | a mousemove splats at once and leaves the pointer moved, so the next applyInputs repeats that splat |
| FluidSimulation.MovedSplatsCount | color_lab/fluid_simulation/js/script.js:1287-1292 | the pointer loop makes exactly one splat per moved pointer |
| FluidSimulation.MovedSplatsMembers | color_lab/fluid_simulation/js/script.js:1287-1292 | a pointer's splat is made iff the pointer moved |
| FluidSimulation.InputSplatsShape | color_lab/fluid_simulation/js/script.js:1284-1293 | one frame's input splats are the top burst size plus one per moved pointer |
| FluidSimulation.ResolutionPositive | color_lab/fluid_simulation/js/script.js:1624-1633 | a resolution of at least one cell gives at least one texel in each direction |
| FluidSimulation.CreateProjection | color_lab/fluid_simulation/js/script.js:1122-1124 | divergence, curl and the pressure pair are four fresh framebuffers, in that order; existing textures are untouched |
| FluidSimulation.AllocateFields | color_lab/fluid_simulation/js/script.js:1105-1126 | the first initFramebuffers creates dye, velocity, divergence, curl and pressure, in that order, and paints dye.read white |
| FluidSimulation.Simulation.constructor | color_lab/fluid_simulation/js/script.js:1248-1251 | the first initFramebuffers on a fresh context, a single prototype pointer, an empty splat stack and the clock read |
| FluidSimulation.Simulation.ApplyVortexForce | color_lab/fluid_simulation/js/script.js:540-575 | a temporary framebuffer of velocity's size receives the vortex field, which is blended into velocity; velocity swaps once; the temporary is deleted |
| FluidSimulation.Simulation.CurlPasses | color_lab/fluid_simulation/js/script.js:1300-1312 | the curl pass, then the vorticity pass; velocity swaps once |
| FluidSimulation.Simulation.Project | color_lab/fluid_simulation/js/script.js:1317-1335 | divergence, the pressure clear, then the Jacobi loop; pressure swaps 1 + PRESSURE_ITERATIONS times |
| FluidSimulation.Simulation.JacobiIterations | color_lab/fluid_simulation/js/script.js:1328-1335 | PRESSURE_ITERATIONS passes as JacobiCommands says, one pressure swap each |
| FluidSimulation.Simulation.AdvectionPasses | color_lab/fluid_simulation/js/script.js:1337-1373 | gradient subtraction, velocity advection, dye advection; velocity swaps twice, dye once |
| FluidSimulation.Simulation.Blur | color_lab/fluid_simulation/js/script.js:1404-1420 | per iteration, a horizontal pass into temp and a vertical pass back; the roles are unchanged |
| FluidSimulation.Simulation.Step | color_lab/fluid_simulation/js/script.js:1295-1377 | the step's passes, from its starting roles; velocity swaps 4 times, pressure 1 + PRESSURE_ITERATIONS, dye once |
| FluidSimulation.Simulation.ResizeDye | color_lab/fluid_simulation/js/script.js:1107 | dye moves to fresh framebuffers unless its size is unchanged; existing textures are untouched |
| FluidSimulation.Simulation.ResizeVelocity | color_lab/fluid_simulation/js/script.js:1109-1120 | likewise for velocity; its read buffer then holds a copy of the old read |
| FluidSimulation.Simulation.ResizeFields | color_lab/fluid_simulation/js/script.js:1105-1120 | dye and then velocity take their new sizes, allocating and copying only when the size changed; the other fields and the inputs are untouched |
| FluidSimulation.Simulation.ReplaceProjection | color_lab/fluid_simulation/js/script.js:1122-1124 | four fresh framebuffers become divergence, curl and the pressure pair; velocity.read is kept |
| FluidSimulation.Simulation.RenewProjection | color_lab/fluid_simulation/js/script.js:1122-1126 | fresh divergence, curl and pressure replace the old ones, then dye.read is painted white; velocity.read is kept |
| FluidSimulation.Simulation.InitFramebuffers | color_lab/fluid_simulation/js/script.js:1093-1127 | the re-initialisation schedule and roles; dye and velocity take the new resolutions, velocity.read's contents carry over, dye.read is white, and nothing is deleted |
| FluidSimulation.Simulation.ApplySplat | color_lab/fluid_simulation/js/script.js:1439-1462 | a velocity pass and a dye pass, each followed by a swap |
| FluidSimulation.Simulation.MultipleSplats | color_lab/fluid_simulation/js/script.js:1428-1437 | `amount` random splats in the configured colour; velocity and dye each swap `amount` times |
| FluidSimulation.Simulation.SplatPointer | color_lab/fluid_simulation/js/script.js:1422-1426 | one splat at the pointer, pushed by its deltas times SPLAT_FORCE, in its colour |
| FluidSimulation.Simulation.ClearScreen | color_lab/fluid_simulation/js/script.js:1494-1500 | dye.write is filled white and dye swaps, so the shown dye is white |
| FluidSimulation.Simulation.Render | color_lab/fluid_simulation/js/script.js:1379-1402 | the display pass shows dye.read on screen; no texture changes |
| FluidSimulation.Simulation.FindPointer | color_lab/fluid_simulation/js/script.js:1473 | the index of the first pointer with that id, or -1 when there is none |
| FluidSimulation.Simulation.OnMouseDown | color_lab/fluid_simulation/js/script.js:1470-1478 | pointers[0] is put down at the scaled offset with a new colour and splats there |
| FluidSimulation.Simulation.OnMouseMove | color_lab/fluid_simulation/js/script.js:1480-1488 | only while pointers[0] is down, it moves and splats at once; otherwise nothing happens |
| FluidSimulation.Simulation.OnMouseUp | color_lab/fluid_simulation/js/script.js:1490-1492 | pointers[0] is lifted and nothing is drawn |
| FluidSimulation.Simulation.CalcDeltaTime | color_lab/fluid_simulation/js/script.js:1265-1271 | returns DeltaTime since the last reading and keeps the new reading |
| FluidSimulation.Simulation.ResizeCanvas | color_lab/fluid_simulation/js/script.js:1273-1282 | the canvas takes the scaled client size; the result is true iff that changed the size |
| FluidSimulation.Simulation.FitCanvas | color_lab/fluid_simulation/js/script.js:1258 | the framebuffers are rebuilt exactly when the canvas changed size |
| FluidSimulation.Simulation.BeginFrame | color_lab/fluid_simulation/js/script.js:1257-1258 | dt is computed from the clock, the canvas takes the scaled size, and the framebuffers are re-initialised iff it was resized; inputs are untouched |
| FluidSimulation.Simulation.AdvanceFrame | color_lab/fluid_simulation/js/script.js:1259-1261 | the input splats, then a step unless paused, then the render pass |
| FluidSimulation.Simulation.StepUnlessPaused | color_lab/fluid_simulation/js/script.js:1260 | a paused simulation draws nothing; otherwise one step |
| FluidSimulation.Simulation.StepAndRender | color_lab/fluid_simulation/js/script.js:1260-1261 | a step unless paused, then the display pass of the roles after it; pointer states are unchanged |
| FluidSimulation.Simulation.Update | color_lab/fluid_simulation/js/script.js:1256-1263 | one frame: the clock is read, the canvas is fitted (rebuilding iff resized), the inputs are applied, the simulation steps unless paused, the dye is rendered; at most one stack entry is popped and every pointer's moved flag is cleared |
| FluidSimulation.Simulation.QueueSplats | color_lab/fluid_simulation/js/script.js:1254 | the burst size is pushed on top of the splat stack |
| FluidSimulation.Simulation.ConsumeMoves | color_lab/fluid_simulation/js/script.js:1287-1292 | every moved pointer splats once, in array order, and is marked consumed; nothing else about a pointer changes |
| FluidSimulation.Simulation.ConsumePointer | color_lab/fluid_simulation/js/script.js:1288-1291 | one pointer of the loop: if moved it is marked consumed and its splat is drawn; the loop invariant advances by one |
| FluidSimulation.Simulation.PopBurst | color_lab/fluid_simulation/js/script.js:1285 | the most recent burst size is popped and that many random splats are made; the stack is otherwise unchanged |
| FluidSimulation.Simulation.ApplyInputs | color_lab/fluid_simulation/js/script.js:1284-1293 | pops at most the top stack entry and makes its burst, then one splat per moved pointer; every pointer ends with moved false |
| SimulationLinks.Encode | color_lab/device_drivers.py:68-81 | each Api message is a dict whose "type" is its type name; only updateConfig has "key" and "value" |
| SimulationLinks.TypeName | color_lab/device_drivers.py:68-81 | every message carries a non-empty type name |
| SimulationLinks.Decode | color_lab/fluid_simulation/js/script.js:1678-1690 | the page dispatches a dict only on one of the known type names |
| SimulationLinks.DecodeEncode | color_lab/device_drivers.py:68-81 | the page dispatches every Api message to the command it was built from |
| SimulationLinks.EncodeInjective | color_lab/device_drivers.py:68-81 | no two commands share a dict |
| SimulationLinks.EncodeAllConcat | color_lab/device_drivers.py:60-61 | encoding a run of commands distributes over concatenation |
| SimulationLinks.EncodeAllAt | color_lab/device_drivers.py:60-61 | the i-th queued dict is the encoding of the i-th command |
| SimulationLinks.ReceiveOnlyColors | color_lab/device_drivers.py:34-46 | afterwards the colour slot holds either its old value (flag as it was) or the colour of one received frame (flag set) |
| SimulationLinks.ReceiveIgnoresOthers | color_lab/device_drivers.py:37-42 | frames of any other type leave the colour and the event as they were |
| SimulationLinks.ReceiveLastWins | color_lab/device_drivers.py:38-40 | a well-formed averageColor frame at the end of a clean run leaves its colour in the slot with the event set |
| SimulationLinks.FluidSimulationServer.constructor | color_lab/device_drivers.py:11-19 | an empty queue, no colour and the event clear |
| SimulationLinks.FluidSimulationServer.SendMessage | color_lab/device_drivers.py:60-61 | the message joins the back of the queue |
| SimulationLinks.FluidSimulationServer.RecordAverageColor | color_lab/device_drivers.py:38-40 | the colour is stored and the event is set |
| SimulationLinks.FluidSimulationServer.ReceiveMessages | color_lab/device_drivers.py:34-46 | the colour slot and the event end as Receive says; a non-JSON frame ends quietly; an indexing error escapes |
| SimulationLinks.FluidSimulationApi.constructor | color_lab/device_drivers.py:65-66 | the Api is bound to the given server |
| SimulationLinks.FluidSimulationApi.UpdateConfigOf | color_lab/device_drivers.py:68-70 | one updateConfig message with the key and value is queued |
| SimulationLinks.FluidSimulationApi.ClearScreen | color_lab/device_drivers.py:72-74 | one clear message is queued |
| SimulationLinks.FluidSimulationApi.CenterSplatOf | color_lab/device_drivers.py:76-78 | one centerSplat message is queued |
| SimulationLinks.FluidSimulationApi.ComputeAverageColorOf | color_lab/device_drivers.py:80-90 | queues the request; returns the stored colour if the event was already set, the arriving colour if one arrives, and None on a timeout; the event is clear afterwards |
| LabDrivers.ColorData | color_lab/device_drivers.py:119-124 | four entries named cyan, magenta, yellow and black, in that order |
| LabDrivers.Reverse | color_lab/device_drivers.py:126 | reversal keeps the length |
| LabDrivers.ReverseAt | color_lab/device_drivers.py:126 | position i of the reversal holds the i-th entry from the back |
| LabDrivers.ReverseReverse | color_lab/device_drivers.py:126 | reversing twice gives the list back |
| LabDrivers.NewColorData | color_lab/device_drivers.py:119-124 | a fresh array holding ColorData |
| LabDrivers.ReverseInPlace | color_lab/device_drivers.py:126 | the array becomes the reverse of its old contents |
| LabDrivers.MixOrder | color_lab/device_drivers.py:119-126 | after the reversal the loop takes black, yellow, magenta, cyan, each with its own volume and strength |
| LabDrivers.CountActive | color_lab/device_drivers.py:129 | counts the entries with non-zero volume and strength |
| LabDrivers.ActiveCount | color_lab/device_drivers.py:129 | the number of active colours is at most the number of entries |
| LabDrivers.ActiveCountReverse | color_lab/device_drivers.py:126-129 | the count is the same before and after the reversal |
| LabDrivers.IndividualMixingTime | color_lab/device_drivers.py:131 | mixing_time shared evenly over the active colours, 0 when there are none |
| LabDrivers.ShadeMessages | color_lab/device_drivers.py:140-146 | four commands per active colour, the last being centerSplat |
| LabDrivers.SplatMessagesCounts | color_lab/device_drivers.py:135-146 | the loop sends 4 commands per active colour, one of them a centre splat |
| LabDrivers.NoActiveNoSplats | color_lab/device_drivers.py:135-137 | with no active colour the loop sends nothing, so the divisor is never used |
| LabDrivers.SplatColors | color_lab/device_drivers.py:142 | the COLOR commands name the active colours, capitalised, in loop order |
| LabDrivers.ZeroDivisorStops | color_lab/device_drivers.py:140 | a divisor of 0 at an active colour stops the mix before anything of the loop is sent |
| LabDrivers.MixMessagesShape | color_lab/device_drivers.py:117-152 | a finished mix sends 3 + 4·active commands with exactly `active` centre splats; it starts with clear and VORTEX_STRENGTH = mixing speed and ends with VORTEX_STRENGTH = 0 |
| LabDrivers.PrepareColorData | color_lab/device_drivers.py:119-129 | the data is ColorData reversed and the count is its number of active entries |
| LabDrivers.ColorMixerDriver.Mix | color_lab/device_drivers.py:103-155 | without a zero divisor in use: returns True and queues exactly MixMessages; otherwise raises ZeroDivisionError after clear and the first VORTEX_STRENGTH |
| LabDrivers.ColorMixerDriver.constructor | color_lab/device_drivers.py:100-101 | the driver is bound to the given Api |
| LabDrivers.ColorMixerDriver.SendMixCommands | color_lab/device_drivers.py:133-152 | after the clear: the vortex at the mixing speed, the loop's commands and the vortex reset, or only the first of these when the loop raises |
| LabDrivers.ColorMixerDriver.SplatAll | color_lab/device_drivers.py:135-150 | queues the loop's commands, or nothing and an error when a zero divisor is used |
| LabDrivers.ColorMixerDriver.SplatNext | color_lab/device_drivers.py:136-146 | an inactive colour is skipped; an active one sends its four commands unless the divisor is 0, which raises before anything is sent |
| LabDrivers.ColorMixerDriver.SendShade | color_lab/device_drivers.py:140-146 | the four commands of one colour are queued |
| LabDrivers.ColorAnalyzerDriver.Analyze | color_lab/device_drivers.py:162-167 | requests the colour, then returns its r, g and b; a timeout raises TypeError and a missing key raises KeyError |
| LabDrivers.ColorAnalyzerDriver.constructor | color_lab/device_drivers.py:159-160 | the driver is bound to the given Api |
| LabDrivers.Channels | color_lab/device_drivers.py:167 | r, g and b of a dict with all three keys; TypeError for a non-dict; KeyError for the first missing key |
| DeviceHosting.ErrorResponse | color_lab/device_drivers.py:200 | the dict has exactly one key, "error" |
| DeviceHosting.Dispatch | color_lab/device_drivers.py:188-210 | a known method's own result; "Function not found" for an unknown name; the exception's text for anything raised |
| DeviceHosting.DispatchCalls | color_lab/device_drivers.py:190-197 | a well-formed command for a method that returns normally is answered with that method's result |
| DeviceHosting.ResponsesPerLine | color_lab/device_drivers.py:183-210 | exactly one response per line read, in order, each the response to its own line; nothing after the empty read is answered |
| DeviceHosting.ResponsesAppend | color_lab/device_drivers.py:203-210 | a bad line does not end the loop: the responses to two runs of lines are the two runs' responses together |
| DeviceHosting.HandleDevice | color_lab/device_drivers.py:180-213 | the responses written are those of ResponsesPerLine |
| DeviceHosting.SimulationDevicesStep | color_lab/device_drivers.py:256-258 | one more instance adds its analyzer, then its mixer |
| DeviceHosting.DeviceKeyInjective | color_lab/device_drivers.py:257-258 | different numbers or kinds give different keys |
| DeviceHosting.SimulationDevicesEntries | color_lab/device_drivers.py:254-259 | color_analyzer_{i+1} is on 5003+2i and color_mixer_{i+1} on 5004+2i, each bound to the i-th Api |
| DeviceHosting.SimulationDevicesKeys | color_lab/device_drivers.py:254-259 | there are no other entries |
| DeviceHosting.SimulationDevicesSize | color_lab/device_drivers.py:254-259 | the dict holds 2·n entries |
| DeviceHosting.SimulationPortsDistinct | color_lab/device_drivers.py:254-259 | no two simulation devices share a port |
| DeviceHosting.SimulationPortsRange | color_lab/device_drivers.py:254-259 | every simulation port lies in 5003..5002+2n, clear of 5001 and 5002 |
| DeviceHosting.StaticKeysApart | color_lab/device_drivers.py:271-276 | the static keys are not simulation keys |
| DeviceHosting.AllDevicesEntries | color_lab/device_drivers.py:276 | the merged dict keeps both static devices and every simulation device |
| DeviceHosting.AllDevicesSize | color_lab/device_drivers.py:271-276 | main() starts 2·n + 2 listeners |
| DeviceHosting.AllDevicesPortsDistinct | color_lab/device_drivers.py:271-276 | every listener of main() has a port of its own |
| DeviceHosting.FluidSimulationManager.constructor | color_lab/device_drivers.py:225-231 | the ports as given (8030 and 9050 by default) and empty lists |
| DeviceHosting.FluidSimulationManager.InitializeInstances | color_lab/device_drivers.py:233-241 | instance i gets a server on websocket port base+i, an Api on that server, and a web page on web port base+i for that websocket port; everything is appended |
| DeviceHosting.FluidSimulationManager.GetSimulationDevices | color_lab/device_drivers.py:254-259 | the loop builds SimulationDevices of the Apis |
| PyValues.Add | color_lab/devices/color_mixer/device.py:51 | `v + x` is the sum for a number or bool and raises TypeError otherwise |
| PyValues.Index | color_lab/device_drivers.py:167 | `v[key]` is the entry of a dict that has the key, KeyError for a dict without it, TypeError otherwise |
| PyValues.DecimalRoundTrip | color_lab/device_drivers.py:257-258 | reading back the digits of `str(n)` gives n |
| PyValues.NatToStringInjective | color_lab/device_drivers.py:257-258 | different numbers have different decimal strings |
| PyValues.Capitalize | color_lab/device_drivers.py:142 | the same length, the first character in upper case |
| PyValues.NatToString | color_lab/device_drivers.py:257-258 | a non-empty string of digits, with no leading zero, at least two digits from 10 on |
| PyValues.LowerIdempotent | color_lab/device_drivers.py:142 | lower-casing a character twice is lower-casing it once |
| PyValues.CapitalizeIdempotent | color_lab/device_drivers.py:142 | capitalising twice is capitalising once |
| DeviceClients.Answer | color_lab/common/device_client.py:30-41 | no line raises ConnectionError; non-JSON raises ValueError; a dict with "error" raises RuntimeError; anything else is returned |
| DeviceClients.DeviceClient.constructor | color_lab/common/device_client.py:7-10 | no socket yet and nothing sent |
| DeviceClients.DeviceClient.OpenConnection | color_lab/common/device_client.py:12-16 | the client is connected |
| DeviceClients.DeviceClient.CloseConnection | color_lab/common/device_client.py:18-21 | the client is not connected |
| DeviceClients.DeviceClient.SendCommand | color_lab/common/device_client.py:23-41 | without a socket: ConnectionError and nothing sent; otherwise the command is sent and the reply is read as Answer |
| CleaningStations.CleaningStationDevice.constructor | color_lab/devices/cleaning_station/device.py:9-12 | a connected client on the port, nothing sent |
| CleaningStations.CleaningStationDevice.Cleanup | color_lab/devices/cleaning_station/device.py:14-15 | the connection is closed |
| DeviceClients.NoReport | color_lab/devices/cleaning_station/device.py:17-18 | the report of the cleaning station, and of the colour mixer (color_mixer/device.py:17-18), is empty |
| CleaningStations.CleaningStationDevice.Clean | color_lab/devices/cleaning_station/device.py:20-24 | exactly one "clean" command with the duration; the container is returned exactly when send_command returns, and its exception is the result otherwise; a truthy result sets "clean" to True and touches no other key; a falsy one or a failure changes nothing |
| ColorMixers.ColorLoopRaises | color_lab/devices/color_mixer/device.py:47-53 | the colour loop raises exactly when a volume entry is neither missing nor a number |
| ColorMixers.ColorLoopWrites | color_lab/devices/color_mixer/device.py:47-53 | each volume entry grows by its volume from its old value (0 when missing), and each strength is overwritten |
| ColorMixers.FinishEffect | color_lab/devices/color_mixer/device.py:55-61 | "volume" grows by the total (created at 0), "clean" is False, mixing_time and mixing_speed are the arguments, no other key changes |
| ColorMixers.MixRaises | color_lab/devices/color_mixer/device.py:47-57 | mix raises TypeError exactly when one of the five entries it grows is neither missing nor a number |
| ColorMixers.MixWritesColors | color_lab/devices/color_mixer/device.py:47-52 | each colour's volume grows by its volume (from 0) and each strength is overwritten |
| ColorMixers.MixWritesTally | color_lab/devices/color_mixer/device.py:53-61 | "volume" grows by the sum of the four volumes, "clean" is False, mixing_time and mixing_speed are the arguments |
| ColorMixers.MixKeeps | color_lab/devices/color_mixer/device.py:47-61 | every key mix does not write is as it was |
| ColorMixers.ColorMixerDevice.constructor | color_lab/devices/color_mixer/device.py:9-12 | a connected client on the port, nothing sent |
| ColorMixers.ColorMixerDevice.Cleanup | color_lab/devices/color_mixer/device.py:14-15 | the connection is closed |
| ColorMixers.ColorMixerDevice.AddColorsTo | color_lab/devices/color_mixer/device.py:47-53 | the loop leaves the metadata as AddColors says, and the running total is the sum of the volumes |
| ColorMixers.ColorMixerDevice.FinishOn | color_lab/devices/color_mixer/device.py:55-61 | the tally leaves the metadata as Finish says |
| ColorMixers.ColorMixerDevice.Mix | color_lab/devices/color_mixer/device.py:20-65 | the metadata becomes MixMetadata of the old one (as far as it got if it raised); the one "mix" command with the ten parameters is sent only after that; the same container is returned |
| RobotArms.MovePlanProperties | color_lab/devices/robot_arm/device.py:22-38 | no move iff the container is at the target; otherwise at most 3 chained moves that end at the centre, include the carry, and start with a pre-positioning move iff the arm is elsewhere |
| RobotArms.PlanShape | color_lab/devices/robot_arm/device.py:24-36 | where the pre-positioning move, the carry and the return to the centre sit in a plan |
| RobotArms.MovesDone | color_lab/devices/robot_arm/device.py:22-38 | where move_container stops, counting from move k, lies between k and the plan's length |
| RobotArms.MovesDoneStops | color_lab/devices/robot_arm/device.py:22-38 | that point is a move whose send_command raises (or the end of the plan), and every move before it gets through |
| RobotArms.RobotArm.constructor | color_lab/devices/robot_arm/device.py:9-14 | a connected client, nothing sent, the arm at the centre |
| RobotArms.RobotArm.Cleanup | color_lab/devices/robot_arm/device.py:16-17 | the connection is closed |
| RobotArms.RobotArm.Report | color_lab/devices/robot_arm/device.py:19-20 | exactly the key arm_location, holding the arm's location |
| RobotArms.RobotArm.MoveContainer | color_lab/devices/robot_arm/device.py:22-38 | the moves that get through are exactly those before the first whose send_command raises (MovesDone), and that one's exception is the result; the commands up to it are sent; the arm is where the moves that got through left it; the container is at the target once its own move got through; the same container is returned when all moves get through; metadata unchanged |
| RobotArms.RobotArm.Preposition | color_lab/devices/robot_arm/device.py:24-28 | the arm goes to the container first iff it is elsewhere; if that move raises, the move is the stopping point with its exception and the arm stays; otherwise the arm is at the container and the stopping point is unchanged by the move |
| RobotArms.RobotArm.Carry | color_lab/devices/robot_arm/device.py:30-36 | the carry and the return to the centre: it stops at the first of them whose send_command raises, with that exception, with the same accounting as MoveContainer |
| RobotArms.RobotArm.SendMove | color_lab/devices/robot_arm/device.py:25-26 | the result is send_command's: Answer of the server's reply to this move on an open connection, ConnectionError without one (nothing sent) |
| RobotArms.RobotArm.EmptyContainer | color_lab/devices/robot_arm/device.py:40-46 | it succeeds exactly when every move and then "empty" get through, failing otherwise with the first exception; the arm and the container end where the moves that got through left them (the arm back at the centre on success); the commands sent are the moves tried, then "empty" once they all got through; the metadata is emptied iff "empty" answered truthy, otherwise unchanged |
| RobotArms.RobotArm.EmptyHere | color_lab/devices/robot_arm/device.py:42-46 | one "empty" command on an open connection; the container is returned exactly when it gets through, its exception otherwise; a truthy result clears the metadata |

## Left out

- Shader code (GLSL), the mixbox colour lookup and all floating-point pixel arithmetic: a texture's content is a symbolic term.
- WebGL state outside framebuffers (programs, uniforms, blending, texture units): a pass is identified by its kernel, its sampled framebuffers and its target.
- The `supportRenderTextureFormat` probe is a parameter predicate of `Formats.GetSupportedFormat`, and `getWebGLContext` is not modelled.
- `Date.now()`, `Math.random()`, `devicePixelRatio` and the canvas client size are parameters, because they are outside inputs.
- The keydown handler, the GUI, `captureScreenshot`, `textureToCanvas` and the colour statistics are not modelled. The WebSocket handlers are also left out, except the dispatch `SimulationLinks.Decode`. These are browser or DOM I/O.
- `performConfigUpdate` and the other `perform…` handlers of the page are not modelled. `SimulationLinks.Decode` stops at the command it dispatches, and `FluidSimulation.Simulation` takes the config as given.
- The start-up sequence `update(); splatStack.push(50)` (script.js:1253-1254) is not composed into one member. `Simulation.Update` and `Simulation.QueueSplats` model its parts.
- `requestAnimationFrame` rescheduling is left out: each call of `Update` is one frame.
- JavaScript numbers and Python floats are exact reals. Python int and float are both `Num`. NaN, infinities and rounding error are not modelled.
- sleeps, `asyncio` scheduling, sockets, timeouts and locks are left out. A device client's server is an oracle function, and a timeout in `compute_average_color` is the `arrival` parameter being None.
- The exception text `str(e)` is a parameter `describe` of `DeviceHosting.Dispatch`.
- JSON text and UTF-8 encoding are left out: messages are decoded values, and a line that is not JSON is its own case.
- `CleaningStationDriver.clean`, `RobotArmDriver.move` and `RobotArmDriver.empty` are left out. Each only sleeps and returns True; a driver in `DeviceHosting` is any method table.
- `handle_client`'s single-connection lock and `send_messages` forwarding are left out, because they are concurrency. The queue is the record of what is forwarded.
- `device_listener`, the web runner cleanup and `webbrowser.open` are left out, because they are I/O.
- `int(initialization_parameters["port"])`: the port is passed as an integer.
- Python dict insertion order is not modelled: maps are unordered.
- The drivers in the devices dict are `DeviceHosting.DriverRef` values naming the Api they are bound to.
- The drawing buffer is taken to be the canvas size. `getResolution` reads `gl.drawingBufferWidth/Height` (script.js:1625-1631), which a browser may clamp below the canvas size; `FluidSimulation.Simulation.SimRes` and `DyeRes` pass the canvas size.
- Metadata aliasing is not modelled: `Containers.Container.metadata` is a map value. `empty_container` writes `volume = 0` into the old dict before replacing it (robot_arm/device.py:44-45); another holder of that dict would see the write, and the model has no such holder.
- ColorMixers.ColorMixerDevice.Mix: the TypeError raised by `+` on a non-numeric entry is modelled as stopping the update where it happened. The content of the exception message is not modelled.
- SimulationLinks.Decode: an updateConfig message without a string key or a value decodes to None. The page would still call `performConfigUpdate` with `undefined`. The `computeColorVariance` and `computeColorStandardDeviation` types also decode to None, because no Api method sends them and their handlers are not modelled.
