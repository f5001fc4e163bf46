# PixelEngine core in Dafny

This project models the host-side core of PixelEngine, a small Vulkan
renderer written in C++. The parts modelled are:

- **Scenes** (`pixel_scene.dfy`, over `packing.dfy`, `alignment.dfy`,
  `layout.dfy` and `glm.dfy`). A `PixelScene` owns:
  - the objects it draws;
  - the camera block `UboVP`, with a view matrix `V` and a projection `P`;
  - one uniform buffer and one dynamic uniform buffer per swap-chain slot, with their device memories;
  - a host transfer space that holds one aligned block per object.

  `updateUniformBuffer` flips the projection's y scale and copies the camera
  block into the slot's memory, but only while some slot is still stale.
  `updateDynamicUniformBuffer` writes each object's `DynamicUBObj` at
  `i * objectUBOAlignment` in the transfer space and copies the used prefix to
  device memory. The stride is `(sizeof(DynamicUBObj) + minUBOOffset - 1) & ~(minUBOOffset - 1)`,
  computed in 64-bit unsigned arithmetic. The model proves that this stride is
  `sizeof(DynamicUBObj)` rounded up to a multiple of the alignment. It then
  proves that every object's block reads back, byte for byte, from the device
  memory.
- **Objects** (`pixel_object.dfy`). A `PixelObject` holds its vertices, its
  indices, its two per-object matrix blocks and its textures. Its byte sizes
  are modelled exactly: vertices and indices are laid out as the `memcpy` to
  the vertex and index buffers sees them. `Square()` and `Cube()` build the
  same four-vertex quad.
- **Vulkan helpers** (`utility.dfy`) and **renderer start-up**
  (`pixel_renderer.dfy`). These cover:
  - memory-type selection;
  - instance extension and layer checks;
  - surface format, depth format and present mode choice;
  - the `PixelRenderer` start-up sequence (instance, physical device, queue families, logical device).

  Vulkan and GLFW answers are inputs, held in a `Platform` record.
- **Logging** (`pixel_logger.dfy`). These cover:
  - the `Logger` singleton with its severity threshold and message list;
  - the `LOG` and `LOG_VAR` macros;
  - the `ScopeTracker` indentation counter;
  - the hand-written `printf`-style formatter in `Logger::Log` / `Logger::LogVar`, which reads `%d`, `%s`, `%f` and `%%`.
- **Input** (`kb_input.dfy`). The GLFW key and mouse-button callbacks and the
  global flags they raise and clear.

Values are modelled as follows:

- Floats are carried as 32-bit patterns (`bv32`). Only sign flips and copies are performed on them.
- Byte images are little-endian.
- Integers are unbounded, except where the source's 64-bit unsigned wrap-around matters (the stride mask and the transfer-space size). There the wrap-around is written out.

Behaviours of the source that the model keeps as written:

- `PixelRenderer::checkInstanceExtensionSupport` tests `strcmp(...)` for truth, which means "differs". So a name passes when some available extension has a *different* name. Any list of two or more distinct extension names therefore accepts everything (`InvertedCheckAcceptsAll`). A name fails only when every available extension carries exactly that name.
- `PixelRenderer::setupQueueFamilies` never sets `presentationFamily`. The returned indices are therefore never valid. Also, the *last* graphics-capable family wins, because the loop does not stop at the first one.
- `setupPhysicalDevice` picks device 0 whenever the list is non-empty. `checkIfPhysicalDeviceSuitable` always answers true. The `runtime_error` built for an empty list is never thrown.
- `findMemoryTypeIndex` returns 0 both for "type 0 is suitable" and for "nothing is suitable".
- `Cube()` builds the same square as `Square()`.
- In the formatter, a `%` followed by any character other than `d`, `s`, `f` or `%` emits nothing and consumes no argument. A `%` as the last character of a format makes the loop step past the string's terminator and keep reading. The model requires formats without one (`Matches`).

## Model

| member | source | states |
|---|---|---|
| Alignment.StrideIsRoundUp | source/PixelScene.cpp:186 | for a power-of-two alignment below 2^64, the 64-bit wrapped `(s + a - 1) & ~(a - 1)` equals `s` rounded up to a multiple of `a` |
| Alignment.StrideBounds | source/PixelScene.cpp:186 | the stride is at least the block size, a multiple of the alignment, and less than block size plus alignment |
| Alignment.WrappedOperands | source/PixelScene.cpp:186 | the 64-bit wrapped sum and the complemented mask equal their unbounded values for alignments up to 2^63 |
| Alignment.AndHighMask | source/PixelScene.cpp:186 | masking with `limit - a` clears exactly the remainder modulo `a` |
| Alignment.MaskRoundsDown | source/PixelScene.cpp:186 | `x & ~(a - 1)` on 64 bits rounds `x` down to a multiple of `a` |
| Alignment.StrideFor256ByteAlignment | source/PixelScene.cpp:186 | an illustration on one input: a 128-byte block on a device with 256-byte alignment gets a 256-byte stride |
| Alignment.Mul64 | source/PixelScene.cpp:189 | the 64-bit product is below 2^64 and equals the true product when that fits |
| Alignment.MultipleOfAligned | source/PixelScene.cpp:217 | every block offset `i * stride` is a multiple of the alignment |
| Alignment.BlockWithinBuffer | source/PixelScene.cpp:217-224 | block `i` of `count` ends within `count * stride` bytes |
| Alignment.BlocksDisjoint | source/PixelScene.cpp:215-219 | an earlier block ends before a later one starts |
| Alignment.FewerBlocks | source/PixelScene.cpp:189 | fewer objects than `MAX_OBJECTS` occupy no more than the allocated size |
| Glm.Negate | source/PixelScene.cpp:105 | `x *= -1` on a float: the sign bit flips and every other bit is kept |
| Glm.NegateInvolutive | source/PixelScene.cpp:105 | negating a float twice gives it back |
| Glm.FlipY | source/PixelScene.cpp:105 | flipping negates `P[1][1]`, leaves every other entry unchanged, and always changes the matrix |
| Glm.FlipYInvolutive | source/PixelScene.cpp:105 | flipping the projection twice restores it |
| Layout.WordRoundTrip | source/PixelScene.cpp:109 | a 32-bit word decodes back from its 4 little-endian bytes |
| Layout.WordsRoundTrip | source/PixelObject.cpp:102-104 | a word vector decodes back from its byte image |
| Layout.WordsBytesAt | source/PixelObject.cpp:102-104 | word `k` sits at bytes `4k .. 4k + 4` of the image |
| Layout.ColumnsRoundTrip | source/PixelScene.cpp:109 | a sequence of `vec4` columns decodes back from its words |
| Layout.Mat4FromColumns | source/PixelScene.cpp:109 | a matrix rebuilt from four columns has exactly those columns |
| Layout.Mat4PairRoundTrip | source/PixelScene.cpp:109 | two matrices copied as raw bytes decode back to the same pair |
| Objects.DynamicUBObjRoundTrip | source/PixelScene.cpp:218 | a `DynamicUBObj` copied as raw bytes decodes back to itself |
| Objects.VerticesBytes | source/PixelObject.cpp:82-84 | the vertex image is `sizeof(Vertex)` bytes per vertex |
| Objects.SquareVertices | source/PixelObject.cpp:24-29 | four vertices, all facing +z, all in the z = 0 plane with w = 1 |
| Objects.SquareIndices | source/PixelObject.cpp:31 | six indices, each naming one of the four vertices, and every vertex is used |
| Objects.PixelObject.constructor | source/PixelObject.cpp:12-16 | keeps the given vertices and indices, so the vertex and index counts are theirs; both matrix blocks start as (identity, zero); no textures |
| Objects.PixelObject.Copy | source/PixelScene.cpp:63 | a copy has the same fields as the original |
| Objects.PixelObject.Square | source/PixelObject.cpp:22-38 | a fresh object with the square's vertices and indices, texture id -1 and pipeline 0 |
| Objects.PixelObject.Cube | source/PixelObject.cpp:40-56 | the same object as `Square()` |
| Objects.PixelObject.SetTexID | source/PixelObject.cpp:34 | sets the texture id and nothing else |
| Objects.PixelObject.SetGraphicsPipelineIndex | source/PixelObject.cpp:35 | sets the pipeline index and nothing else |
| Objects.PixelObject.VertexCount | source/PixelObject.cpp:78-80 | the number of vertices |
| Objects.PixelObject.VertexBufferSize | source/PixelObject.cpp:82-84 | the length of the byte image the vertex buffer receives |
| Objects.PixelObject.IndexCount | source/PixelObject.cpp:98-100 | the number of indices |
| Objects.PixelObject.IndexBufferSize | source/PixelObject.cpp:102-104 | the length of the byte image the index buffer receives |
| Objects.PixelObject.GetDynamicUBObj | source/PixelObject.cpp:149-151 | the object's current dynamic block (its partner is `SetDynamicUBObj`) |
| Objects.PixelObject.GetPushObj | source/PixelObject.cpp:118-120 | the object's current push block (its partner is `SetPushObj`) |
| Objects.PixelObject.SetDynamicUBObj | source/PixelObject.cpp:114-116 | the getter then returns the block set |
| Objects.PixelObject.SetPushObj | source/PixelObject.cpp:145-147 | the getter then returns the block set |
| Objects.PixelObject.SetTransform | source/PixelObject.cpp:140-143 | the push block's model matrix becomes the given one |
| Objects.PixelObject.AddTexture | source/PixelObject.cpp:163-169 | appends the texture and sets the texture id to 0 |
| Packing.Overwrite | source/PixelScene.cpp:224 | the result keeps its length, holds `src` at `offset`, and every byte outside that range is unchanged |
| Packing.CopyInto | source/PixelScene.cpp:218 | the array afterwards is its old contents overwritten at `offset` |
| Packing.PackStep | source/PixelScene.cpp:215-219 | packing one more block overwrites exactly that block's range |
| Packing.PackedBlock | source/PixelScene.cpp:215-219 | the last block packed sits at its offset |
| Packing.PackedEarlierBlock | source/PixelScene.cpp:215-219 | later blocks do not disturb an earlier one |
| Packing.PackedBlocks | source/PixelScene.cpp:215-219 | every block sits at `i * stride` in the packed space |
| Packing.PackedPadding | source/PixelScene.cpp:215-219 | padding bytes between blocks keep their previous contents |
| Packing.BlockIsNotPadding | source/PixelScene.cpp:217 | a byte inside a block is not padding |
| Packing.CopiedBlocks | source/PixelScene.cpp:224 | copying the used prefix carries every block along |
| Packing.CopiedPack | source/PixelScene.cpp:215-224 | every block reads back from a copy of the packed prefix |
| Scenes.UboVPRoundTrip | source/PixelScene.cpp:109 | the camera block copied as raw bytes decodes back to itself |
| Scenes.PixelScene.GetUniformBufferSize | source/PixelScene.cpp:41-43 | the byte length of every camera block |
| Scenes.DynamicUBOs | source/PixelScene.cpp:218 | one block per object, namely that object's dynamic block |
| Scenes.BlockImages | source/PixelScene.cpp:218 | one byte image per block, each `sizeof(DynamicUBObj)` long |
| Scenes.BlockImagesAt | source/PixelScene.cpp:218 | image `k` is the byte image of block `k` |
| Scenes.Resize | source/PixelScene.cpp:53-58 | `vector::resize`: new length, old prefix kept, new slots filled |
| Scenes.ResizeKeepsDistinct | source/PixelScene.cpp:55-57 | resizing a memory list keeps its memories distinct |
| Scenes.ResizedPairDistinct | source/PixelScene.cpp:55-57 | resizing both memory lists keeps all memories distinct |
| Scenes.FreshKeepsDistinct | source/PixelScene.cpp:49-51 | storing a fresh memory in one slot keeps all memories distinct |
| Scenes.PixelScene.constructor | source/PixelScene.cpp:11-14 | an empty, valid scene with no transfer space |
| Scenes.PixelScene.GetMinUBOOffset | source/PixelScene.cpp:192-196 | records the device's offset alignment |
| Scenes.PixelScene.AllocateDynamicBufferTransferSpace | source/PixelScene.cpp:183-190 | the stride is the aligned stride; a fresh space of `stride * MAX_OBJECTS` bytes (64-bit) is allocated |
| Scenes.PixelScene.Initialize | source/PixelScene.cpp:228-232 | records the alignment; for a power-of-two alignment whose space fits 64 bits the scene is initialized |
| Scenes.PixelScene.GetDynamicUniformBufferSize | source/PixelScene.cpp:206-208 | once initialized, the size of the transfer space |
| Scenes.PixelScene.GetMinAlignment | source/PixelScene.cpp:210-212 | once initialized, a multiple of the alignment covering one block, with less than one alignment unit of padding |
| Scenes.PixelScene.ResizeBuffers | source/PixelScene.cpp:53-59 | all five per-slot vectors are resized; new update flags are false; the scene stays valid |
| Scenes.PixelScene.AddObject | source/PixelScene.cpp:61-64 | appends a copy of the object and keeps the earlier ones; the object count grows by one and the new last object is the copy |
| Scenes.PixelScene.GetNumObjects | source/PixelScene.cpp:66-68 | the number of objects |
| Scenes.PixelScene.GetObjectAt | source/PixelScene.cpp:70-72 | the object stored at the index |
| Scenes.PixelScene.GetSceneVP | source/PixelScene.cpp:150-152 | the scene's camera block (its partners are the three setters) |
| Scenes.PixelScene.SetSceneVP | source/PixelScene.cpp:154-157 | the camera block becomes the one given |
| Scenes.PixelScene.SetSceneV | source/PixelScene.cpp:159-161 | replaces the view matrix only |
| Scenes.PixelScene.SetSceneP | source/PixelScene.cpp:163-165 | replaces the projection only |
| Scenes.PixelScene.AllocateUniformBufferMemory | source/PixelScene.cpp:49-51 | a write through the slot pointer the getter returns: a fresh memory of the requested size lands in that slot only, and memories stay distinct (the allocation itself is the renderer's) |
| Scenes.PixelScene.AllocateDynamicUniformBufferMemory | source/PixelScene.cpp:202-204 | a write through the slot pointer the getter returns: a fresh memory of the requested size lands in that slot only, and memories stay distinct (the allocation itself is the renderer's) |
| Scenes.PixelScene.UpdateUniformBuffer | source/PixelScene.cpp:90-115 | when every slot is up to date nothing changes; otherwise the projection's y scale is flipped, the camera block is written at offset 0 of the slot's memory and decodes back from it, and that slot is marked updated |
| Scenes.PixelScene.UpdateDynamicUniformBuffer | source/PixelScene.cpp:214-226 | the transfer space is the packed object blocks; the memory holds the used prefix; each object's block decodes back from offset `i * stride` |
| Scenes.TransferObjects | source/PixelScene.cpp:214-226 | the same packing and copy for any space, memory and stride that fit |
| Scenes.PackObjects | source/PixelScene.cpp:215-219 | the loop leaves the space equal to the packed blocks |
| Scenes.PackBlockStep | source/PixelScene.cpp:217-218 | one loop step writes block `i` at `i * stride` within the space |
| Scenes.DecodeImage | source/PixelScene.cpp:218 | a block's image has the block's size and decodes to it |
| Scenes.BlockDecodes | source/PixelScene.cpp:218 | image `i` decodes to block `i` |
| Scenes.BlocksDecode | source/PixelScene.cpp:224 | when every image sits at its offset, every block decodes from there |
| Scenes.TransferredBlocksDecode | source/PixelScene.cpp:222-225 | after copying the packed prefix, every object block decodes from the memory |
| Utility.QueueFamilyIndices.IsValid | source/Utility.h:26-29 | both families have been found (its partners are `DefaultIndicesInvalid` and `Renderer.QueueFamiliesNeverValid`) |
| Utility.DefaultIndicesInvalid | source/Utility.h:20-29 | default queue family indices (-1, -1) are not valid |
| Utility.FindMemoryTypeIndex | source/Utility.h:39-55 | the first allowed type with all requested properties, or 0 when there is none |
| Utility.CheckInstanceExtensionSupport | source/Utility.h:57-88 | true exactly when every requested extension is available |
| Utility.CheckInstanceLayerSupport | source/Utility.h:90-121 | true exactly when every requested layer is available |
| Utility.GetRequiredExtensions | source/Utility.h:123-139 | the GLFW extension list, unchanged |
| Utility.ChooseBestSurfaceFormat | source/Utility.h:144-161 | an undefined-only list accepts RGBA8 UNORM / sRGB; otherwise the first preferred format, else the first format |
| Utility.ChooseSupportedFormat | source/Utility.h:164-189 | the first format whose tiling has all requested features, or the error message when none has |
| Utility.ChooseBestPresentationMode | source/Utility.h:191-202 | mailbox exactly when offered, otherwise FIFO |
| Renderer.LastGraphicsFamily | source/PixelRenderer.cpp:224-239 | -1 exactly when no family supports graphics; otherwise a graphics family with none after it |
| Renderer.PixelRenderer.constructor | source/PixelRenderer.cpp:22-24 | no instance, device or queue family yet |
| Renderer.PixelRenderer.SetupQueueFamilies | source/PixelRenderer.cpp:212-242 | the last graphics family and presentation -1, so never valid |
| Renderer.QueueFamiliesNeverValid | source/PixelRenderer.cpp:212-242 | whatever families the device reports, the indices are not valid |
| Renderer.PixelRenderer.CheckInstanceExtensionSupport | source/PixelRenderer.cpp:244-275 | true exactly when each requested name differs from some available extension |
| Renderer.InvertedCheckAcceptsAll | source/PixelRenderer.cpp:254-271 | two distinct available names make the check accept any request |
| Renderer.InvertedCheckRejects | source/PixelRenderer.cpp:254-271 | a name fails exactly when every available extension carries that name |
| Renderer.PixelRenderer.CheckIfPhysicalDeviceSuitable | source/PixelRenderer.cpp:277-290 | every device is accepted |
| Renderer.PixelRenderer.SetupPhysicalDevice | source/PixelRenderer.cpp:133-156 | the first device when there is one, otherwise no change and nothing thrown |
| Renderer.PixelRenderer.GetRequiredExtensions | source/PixelRenderer.cpp:292-312 | the GLFW list, followed by the debug-utils extension when validation is on |
| Renderer.PixelRenderer.CreateInstance | source/PixelRenderer.cpp:73-131 | the outcome of the checks and of instance creation; the instance is kept only on success |
| Renderer.InstanceOutcomeWithTwoExtensionNames | source/PixelRenderer.cpp:94-103 | with two distinct available names, only instance creation can fail |
| Renderer.PixelRenderer.CreateLogicalDevice | source/PixelRenderer.cpp:158-196 | succeeds exactly when device creation does; it then records the device and the last graphics family; otherwise the error message and no change |
| Renderer.PixelRenderer.InitRenderer | source/PixelRenderer.cpp:30-45 | the status is `EXIT_FAILURE` exactly when the instance step or device creation fails, else 0; a failed instance step changes nothing; otherwise the instance is kept and device 0 is picked (the old device when there is none); a successful device step records the logical device and the last graphics family; a failed one leaves both unchanged |
| Logging.SeverityName | source/PixelLogger.cpp:9-23 | a name exactly for the five levels, empty otherwise |
| Logging.SeverityNameRoundTrip | source/PixelLogger.cpp:9-23 | each level's name maps back to the level |
| Logging.StripDirectory | source/PixelLogger.cpp:30 | the file name after its last `/` (its contract is `StripDirectoryIsBaseName`) |
| Logging.StripDirectoryIsBaseName | source/PixelLogger.cpp:30 | the result is the suffix of the path after its last `/` |
| Logging.StripDirectoryKeepsPlainName | source/PixelLogger.cpp:30 | a name without `/` is kept whole |
| Logging.Tabs | source/PixelLogger.cpp:31-34 | one tab per indent level, none for a negative indent |
| Logging.AppendTabs | source/PixelLogger.cpp:31-34 | the loop appends exactly that many tabs |
| Logging.Digits | source/PixelLogger.cpp:52 | a non-empty run of decimal digits |
| Logging.DecimalString | source/PixelLogger.cpp:52 | non-empty, starting with `-` exactly for negative numbers |
| Logging.DigitsRoundTrip | source/PixelLogger.cpp:52 | digits read back to the number |
| Logging.DecimalRoundTrip | source/PixelLogger.cpp:52 | the decimal text reads back to the integer |
| Logging.IntToString | source/PixelLogger.h:68 | text that reads back to the integer |
| Logging.StringToString | source/PixelLogger.h:71 | the string itself |
| Logging.CStringTextIsPrefix | source/PixelLogger.cpp:59-62 | `%s` prints the longest NUL-free prefix of its argument |
| Logging.CStringTextOfCString | source/PixelLogger.cpp:59-62 | a `%s` argument without a NUL is printed whole |
| Logging.Expand | source/PixelLogger.cpp:46-73 | the text the format loop appends (its contracts are the step lemmas, `ExpandLiteralPrefix` and `AppendFormatted`) |
| Logging.MatchesBoundsArgCount | source/PixelLogger.cpp:46-73 | a well-typed argument list holds at least as many arguments as the format reads |
| Logging.ExpandLiteralPrefix | source/PixelLogger.cpp:69-71 | text without `%` is copied through ahead of the rest |
| Logging.ExpandDirectiveStep | source/PixelLogger.cpp:50-65 | a directive renders the next argument and consumes it |
| Logging.ExpandEscapeStep | source/PixelLogger.cpp:47-68 | `%%` emits one `%`; any other unknown directive emits nothing; neither consumes an argument |
| Logging.ExpandCharacterStep | source/PixelLogger.cpp:69-71 | an ordinary character is copied |
| Logging.AppendFormatted | source/PixelLogger.cpp:46-73 | the loop appends the expanded format and consumes exactly the arguments it names |
| Logging.IndentAfterAppend | source/PixelLogger.h:28-42 | one more scope event applies one more step to the indent |
| Logging.BalancedFromLowers | source/PixelLogger.h:28-42 | events closing `depth` more scopes than they open lower the indent by `depth` |
| Logging.NestedScopesRestore | source/PixelLogger.h:28-42 | balanced scopes restore the indent |
| Logging.LoggerState.constructor | source/PixelLogger.cpp:3-7 | no instance, id 0, severity 0, no messages, indent 0 |
| Logging.LoggerState.GetInstance | source/PixelLogger.h:57-64 | creates the instance with the given id once; later calls return the same one and keep the id |
| Logging.LoggerState.SetSeverity | source/PixelLogger.h:66 | sets the threshold |
| Logging.LoggerState.Log | source/PixelLogger.cpp:25-82 | appends one entry (tabs, base file name, line, function, severity name, expanded format); echoes exactly when severity is within the threshold |
| Logging.LoggerState.LogVar | source/PixelLogger.cpp:84-139 | appends the tabs and severity prefix followed by the expanded format; echoes exactly when within the threshold |
| Logging.LoggerState.OpenScope | source/PixelLogger.h:28-34 | the indent grows by one |
| Logging.LoggerState.CloseScope | source/PixelLogger.h:35-42 | the indent shrinks by one |
| Logging.LoggerState.LogMacro | source/PixelLogger.h:10-12 | logs at the current indent, then opens a scope; the singleton exists afterwards, created fresh with id 0 when it was absent, otherwise the same instance with its id kept |
| Logging.LoggerState.LogStringVariable | source/PixelLogger.h:14 | appends the prefix and the expansion of `name: %s` with the value (for a name without `%`, `name: ` and the value up to its first NUL); the singleton exists afterwards, created fresh with id 0 when it was absent, otherwise kept with its id |
| Logging.ExpandVariableFormat | source/PixelLogger.h:14 | the `#variable ": %s"` format is well formed and expands to `name: ` and the value up to its first NUL |
| KbInput.KeyTransition | source/kb_input.cpp:111-117 | ENTER press raises `ENTER`; release clears it and raises `ENTER_FLAG`, which never drops |
| KbInput.HeldKeyFollows | source/kb_input.cpp:38-109 | each held-key flag follows its own key's press and release |
| KbInput.HeldKeyFlag | source/kb_input.cpp:38-109 | press sets the key's flag, release clears it, other keys leave it alone |
| KbInput.KeyTransitionByFlag | source/kb_input.cpp:36-118 | a state that follows every flag's rule is the transition's result |
| KbInput.OtherActionChangesNothing | source/kb_input.cpp:36-118 | a repeat (or other action) changes no flag |
| KbInput.OtherKeyChangesNothing | source/kb_input.cpp:36-118 | an unhandled key changes no flag |
| KbInput.EnterFlagStaysRaised | source/kb_input.cpp:111-117 | once raised, `ENTER_FLAG` stays raised for any run of key events |
| KbInput.KeyTransitionIdempotent | source/kb_input.cpp:36-118 | repeating the same event changes nothing more |
| KbInput.KeyTransitionsCommute | source/kb_input.cpp:36-118 | events for different keys commute |
| KbInput.MouseTransition | source/kb_input.cpp:120-153 | left press raises press and click, left release clears them and raises release; right and middle presses are set exactly on their own press; their release flags latch |
| KbInput.MouseFlagsStayRaised | source/kb_input.cpp:120-153 | the left-release, right and middle flags stay raised for any run of mouse events |
| KbInput.KeyboardState.constructor | source/kb_input.cpp:9-20 | every key flag false except `ENTER_FLAG` |
| KbInput.KeyboardState.FollowFirstKeys | source/kb_input.cpp:38-61 | W, E, Q and ESC flags follow their keys |
| KbInput.KeyboardState.FollowLastKeys | source/kb_input.cpp:69-109 | S, D, A, left shift and left super flags follow their keys |
| KbInput.KeyboardState.EnterKey | source/kb_input.cpp:111-117 | the ENTER flags move as the callback moves them |
| KbInput.KeyboardState.KeyCallback | source/kb_input.cpp:36-118 | the new flags are the key transition of the old ones |
| KbInput.MouseState.constructor | source/kb_input.cpp:24-30 | mouse flags start as declared (the right and middle flags raised) |
| KbInput.MouseState.MouseCallback | source/kb_input.cpp:120-153 | the new flags are the mouse transition of the old ones |

## Left out

- Vulkan object creation is left out: buffers, descriptor pools, sets and layouts, swap chain, pipelines, command recording and the frame loop. Their results and handles are inputs, or they are not modelled, because they are calls into the driver.
- The MinvT recomputation in `setTransform` is left out because it is floating-point matrix inversion. The same applies to `addTransform`, `areMatricesEqual`, `setGenericColor` and `scroll_callback`.
- Logging: `%f` arguments are carried as already-rendered text, because formatting a `double` is floating point. `ToString` for `double`, `float`, `vec4` and `mat4` is not modelled.
- File I/O is left out: `readFile`, `importFile`, `importObjFile` and texture loading.
- stdout and stderr output are left out, including the closing-brace line printed by the `ScopeTracker` destructor. The model only records whether a message would be echoed.
- `PixelMemManager`, `PixelUI`, `PixelWindow` and the compute and graphics pipeline classes are not part of this model.
- Scenes.PixelScene.constructor: takes `MAX_OBJECTS` as a parameter. The constant's value and the `VkDevice*` argument are not part of this model.
- Scenes.PixelScene.UpdateDynamicUniformBuffer: requires at most `MAX_OBJECTS` objects. `addObject` appends without a bound, and with more objects the loop writes past the `stride * MAX_OBJECTS` bytes of the transfer space unchecked. That overrun is undefined behaviour and is not modelled.
- Scenes.PixelScene.AllocateDynamicBufferTransferSpace: an `aligned_alloc` failure and the start-address alignment are not modelled. The space is always allocated.
- Scenes.PixelScene.UpdateUniformBuffer: `sizeof(UboVP)` is taken as two 4x4 float matrices (V then P), because the struct's header is not part of this model.
- Objects.PixelObject.constructor: the `LOG(Level::DEBUG, ...)` call it makes is not modelled. That call creates the logger singleton when it is absent, appends one message, and opens and closes a scope. `Square()` and `Cube()` inherit this omission.
- Objects.VerticesBytes: the `Vertex` layout follows the initialisers in `PixelObject.cpp`, which add a two-float texture coordinate. The struct shown in `PixelObject.h` has no such field.
- Objects.PixelObject.SetTexID: the bodies of `setTexID` and `setGraphicsPipelineIndex` are not part of this model. They are modelled as plain field updates.
- Renderer.PixelRenderer.CreateLogicalDevice: with no physical device chosen, the source passes `VK_NULL_HANDLE` to `vkGetPhysicalDeviceQueueFamilyProperties` and `vkCreateDevice`, which is invalid Vulkan usage. The model treats that device as having no queue families and takes `vkCreateDevice`'s result from the platform, so it can succeed with graphics family -1.
- Renderer.PixelRenderer.CheckIfPhysicalDeviceSuitable: the device queries it makes are ignored, because its answer does not depend on them.
- Vulkan and GLFW query results come in as inputs: available extensions and layers, devices, queue families, memory types and format properties.
- C integer widths are not modelled except for the 64-bit stride and size arithmetic. Counters and `int` arguments are unbounded.
- KbInput: `TEXTURE`, `FIT`, `GAIN` and `MPRESS_R_Release` are never changed by the callbacks and are not modelled.
- KbInput.KeyboardState.KeyCallback: its body is split into three helper methods, so that each proof sees a few flags at a time.
- Logging.LoggerState.Log: formats ending in `%` are excluded by its precondition, because the source then reads past the end of the string.
- Logging.Expand: beyond the step lemmas, only the literal-prefix lemma is proved. `va_arg` type mismatches are excluded by `Matches` rather than modelled as undefined behaviour.
- `cleanup` and all freeing of memory are left out, because Dafny has no deallocation.
