# LuaSTG: a verified model of its stateful cores

LuaSTG is a 2D game engine for Windows. Most of its code talks to Direct3D, DirectWrite and other
libraries; this project models the parts that are logic of its own and proves what they are for. The
largest part is the batching renderer; the others are independent of it and of each other.

**The batching renderer** (`Graphics`, `DrawLists`, `UploadRing`, `ImmediateMode`, `BatchedMode`,
`Coherence`, `FlushSteps`, `Renderers`, `Deferral`, `Triangles`, `TriangleRuns`, `IndexRuns`,
`BatchRuns`). Draw calls append vertices and command-local 16-bit indices to a draw list of fixed
capacity; state setters flush the list only if the cached state differs; a flush copies the list
behind earlier ones in the GPU buffers (NO_OVERWRITE) or starts over (DISCARD), and issues one
indexed draw per command. The GPU context is a record: what is bound, what the constant buffers
hold, every version of the vertex and index memory, the queue of issued commands, and what a GPU
that runs each command at once has done. `Renderers.Renderer` has the fields of the original class
and its methods work on them in place. They are proved against two specifications. `Abs` reads the
object as an unbatched renderer: the current state, and everything drawn, pending draws included;
`Value` reads it as it is: list, ring, queue. Every method does to `Abs` what `ImmediateMode` does
and to `Value` what `BatchedMode` does. So after any run of calls and a flush the GPU has been given
the same corners, in the same order, each under the same complete state (`BatchRuns.RunBatch`). What
a GPU makes of the queue at later times, a time of its own for each command, and which triangles it
assembles, is then proved about runs of `BatchedMode`, with the exact class of draw calls for which
it holds. The mutual recursion of `setTexture` and `batchFlush` is kept, with a termination measure,
and the draw list invariants hold through all of it.

**The other cores.** The semaphore and flag rings for window messages (`MessageQueue`), as state
machines over the micro-steps of both threads; the CSV decoder (`Csv`), following the quoting rules
of section 2 of RFC 4180 with separators of any length; text drawing that cuts lines in its own
buffer (`TextLayout`); the glTF node traversal and its draw passes (`ModelTraversal`; sections 3.5.2
and 3.5.3 of the glTF 2.0 specification); the protected-call wrappers as programs on the Lua stack
(`LuaCalls`; sections 3.1 and 3.7 of the Lua 5.1 Reference Manual); the frame schedule
(`FrameSchedule`) and the frame rate history (`FpsHistory`); the keyboard bitmaps (`KeyboardState`);
the merged ImGui draw lists (`DrawListMerge`); and worksheet columns and rows (`Spreadsheet`).

Where the code does not do what one would expect of it, the code is kept, a failing input is given
and the exact condition is proved: `Deferral.DeferralIff` (a restart does not discard an empty half,
so a draw call with vertices alone can spoil draws issued before it), `TriangleRuns.TrianglesIff` (a
draw call that ends inside a triangle spoils the next one in its batch), `IndexRuns.IndexRunsIff`
(an index that is not of the call's own vertices can fetch another call's),
`ImmediateMode.KeptInvisibleIff` (a texture is kept for another of the same view),
`MessageQueue.FlagCleanIff` (the flag is raised before the message is stored),
`Csv.QuotedReadsBackIff` and `Csv.RoundTripUnterminated`, `TextLayout.CountsAgreeIff` and
`TextLayout.TextPlacedIff` (the counting pass is not the drawing pass once words break),
`LuaCalls.ExactIff` (asking for all results leaves the error handler on the stack), and
`KeyboardState.SidesAgreeIff` (only Shift is released on both sides).

`dafny verify dfyconfig.toml` checks everything.

## Model

| member | source | states |
|---|---|---|
| BatchRuns.RunBatch | LuaSTG/Core/Graphics/Renderer_D3D11.cpp:703-1269 | batching is invisible: after any run of setters, draw calls (requested ones too), clears, passes, batches ended and begun, and a flush, the corners given to the GPU (vertices, order, texture, sampler, camera, viewport, scissor, fog, depth, blend, shaders, target) are those of a renderer that draws each call at once, and one that takes every texture it is given if textures of one view look alike; if the draw calls are careful, a GPU that runs each command at any time from its issue on shows the same; if they are clean too, it shows the triangles of each call; and the renderer is where the batched specification puts it, ready for the next such run |
| BatchRuns.NewBatch | LuaSTG/Core/Graphics/Renderer_D3D11.cpp:827-864 | a new renderer with its first batch begun is where the batched specification begins |
| BatchRuns.RunMeans | LuaSTG/Core/Graphics/Renderer_D3D11.cpp:703-1269 | what follows for every run of the specification: later execution, separate times, triangles, textures |
| BatchRuns.Execute | LuaSTG/Core/Graphics/Renderer_D3D11.cpp:920-1269 | any one call does to the abstract state what the unbatched renderer does, and to the renderer as a value what the batched specification says, inside a valid batch |
| BatchRuns.ExecuteSetter | LuaSTG/Core/Graphics/Renderer_D3D11.cpp:920-1154 | the same for each setter |
| BatchRuns.ExecuteState | LuaSTG/Core/Graphics/Renderer_D3D11.cpp:920-1114 | the same for the setters that flush only if a cached state differs |
| BatchRuns.ExecuteDraw | LuaSTG/Core/Graphics/Renderer_D3D11.cpp:1156-1269 | the same for each kind of draw call |
| BatchRuns.ExecuteRequest | LuaSTG/Core/Graphics/Renderer_D3D11.cpp:1243-1269 | a request and its filling are one draw call |
| BatchRuns.ExecuteOther | LuaSTG/Core/Graphics/Renderer_D3D11.cpp:873-918 | the same for flushes, clears, attachments and passes, whatever a model leaves bound |
| ImmediateMode.KeptInvisibleIff | LuaSTG/Core/Graphics/Renderer_D3D11.cpp:1116-1154 | keeping a texture for its view is invisible in every run over an atlas exactly when its textures of one view have one sampler and one alpha type |
| ImmediateMode.RunAlike | LuaSTG/Core/Graphics/Renderer_D3D11.cpp:1116-1154 | a run over such an atlas looks the same whichever of two alike textures is kept |
| ImmediateMode.SettersShow | LuaSTG/Core/Graphics/Renderer_D3D11.cpp:920-1154 | what each setter changes in the look of later draws, value by value, and that it changes nothing else: the viewport from corner to corner of its box, scissor edges cut towards zero, which edge of the box is which side of the projection, a camera that looks at its point, the fog as given |
| ImmediateMode.CallsShow | LuaSTG/Core/Graphics/Renderer_D3D11.cpp:878-1269 | which corners each draw call shows, vertex by vertex (1 2 3, and 1 3 4 for a quad), and what every other call shows |
| BatchedMode.FlushTwice | LuaSTG/Core/Graphics/Renderer_D3D11.cpp:703-740 | with nothing pending a flush changes nothing |
| BatchedMode.SetAgain | LuaSTG/Core/Graphics/Renderer_D3D11.cpp:920-1114 | a setter given what is set, with everything to be bound again, only flushes |
| BatchedMode.PutOff | LuaSTG/Core/Graphics/Renderer_D3D11.cpp:920-1242 | a draw call with room, a texture of the view drawn last and a state already set send nothing to the GPU; another texture only opens a command |
| BatchedMode.RunSnoc | LuaSTG/Core/Graphics/Renderer_D3D11.cpp:703-1269 | a run can be continued call by call |
| Deferral.DeferralIff | LuaSTG/Core/Graphics/Renderer_D3D11.cpp:1212-1242 | for any draw call: every run of it and of complete calls shows, run later, what it was issued for, exactly when the call brings indices with its vertices, or has no vertices, or has as many as the list holds |
| Deferral.AtAnyTimes | LuaSTG/Core/Graphics/Renderer_D3D11.cpp:714-731 | every command of a careful run, executed at a time of its own after its issue, together show exactly what a GPU does that runs each at once |
| Deferral.RunSafe | LuaSTG/Core/Graphics/Renderer_D3D11.cpp:703-1269 | every run of careful calls leaves everything issued executable and the next upload harmless |
| Deferral.StepSafe | LuaSTG/Core/Graphics/Renderer_D3D11.cpp:703-1269 | so does every careful call |
| Deferral.FlushSafe | LuaSTG/Core/Graphics/Renderer_D3D11.cpp:652-684 | so does a flush of a list that brings indices or is full of vertices |
| Deferral.QueuedReplays | LuaSTG/Core/Graphics/Renderer_D3D11.cpp:714-731 | the draws of a flush, run against the memory uploaded to, show the list |
| Deferral.SameAtEnd | LuaSTG/Core/Graphics/Renderer_D3D11.cpp:714-731 | a command run at any time after its issue shows what it shows at the end |
| Deferral.SpoiledRun | LuaSTG/Core/Graphics/Renderer_D3D11.cpp:186-199 | the failing run: a full list, the careless call by itself, one more triangle; the first draw then fetches another vertex |
| Deferral.DrawnAndFlushed | LuaSTG/Core/Graphics/Renderer_D3D11.cpp:703-740 | one draw call on a fresh list and a flush: the exact ring, events and queue |
| TriangleRuns.TrianglesIff | LuaSTG/Core/Graphics/Renderer_D3D11.cpp:1212-1242 | for any draw call: every run of it and of complete, whole calls assembles into the triangles of its calls, exactly when the call is careful and is whole triangles, or is refused, or leaves no room for a triangle behind it |
| TriangleRuns.MergeKeepsTrianglesIff | LuaSTG/Core/Graphics/Renderer_D3D11.cpp:1212-1242 | for any list: merging whole triangles into its last command keeps all triangles, whatever follows, exactly when that command is whole or no triangle has room |
| TriangleRuns.RunShapes | LuaSTG/Core/Graphics/Renderer_D3D11.cpp:1156-1269 | a run of careful, clean calls shows the triangles of its calls |
| TriangleRuns.StepShapes | LuaSTG/Core/Graphics/Renderer_D3D11.cpp:703-1269 | every allowed call adds exactly its own shapes |
| TriangleRuns.DirtyCall | LuaSTG/Core/Graphics/Renderer_D3D11.cpp:1212-1242 | a failing run: the call that ends inside a triangle, and one triangle after it |
| TriangleRuns.CarelessCall | LuaSTG/Core/Graphics/Renderer_D3D11.cpp:186-199 | and one for a call with vertices alone |
| Renderers.Renderer.constructor | LuaSTG/Core/Graphics/Renderer_D3D11.hpp:64-91 | a new renderer is empty and valid, with new memory and nothing issued |
| Renderers.Renderer.BindFixedState | LuaSTG/Core/Graphics/Renderer_D3D11.cpp:827-864 | whatever was bound, the batch's own buffers, layout, topology and constants are in their slots, and nothing else changes |
| Renderers.Renderer.UploadVertexIndexBuffer | LuaSTG/Core/Graphics/Renderer_D3D11.cpp:177-212 | writes each non-empty half at its offset, into new memory if discarding; an empty half is not touched |
| Renderers.Renderer.ClearDrawList | LuaSTG/Core/Graphics/Renderer_D3D11.cpp:213-222 | empties the list |
| Renderers.Renderer.UploadVertexIndexBufferFromDrawList | LuaSTG/Core/Graphics/Renderer_D3D11.cpp:652-684 | appends if both halves fit, else restarts both offsets and discards |
| Renderers.Renderer.UploadList | LuaSTG/Core/Graphics/Renderer_D3D11.cpp:652-684 | the list lies in the current memory at the offsets, within capacity, and nothing else changes |
| Renderers.Renderer.BindTextureSamplerState | LuaSTG/Core/Graphics/Renderer_D3D11.cpp:685-691 | the texture's own sampler, else the state's |
| Renderers.Renderer.BindTextureAlphaType | LuaSTG/Core/Graphics/Renderer_D3D11.cpp:692-702 | the pixel shader follows the alpha type of the texture |
| Renderers.Renderer.IssueCommand | LuaSTG/Core/Graphics/Renderer_D3D11.cpp:720-727 | one command's draw adds exactly that command's corners and its one GPU command, under its prescribed look, and keeps the device in step |
| Renderers.Renderer.FlushCommand | LuaSTG/Core/Graphics/Renderer_D3D11.cpp:717-730 | one iteration: the offsets advance by the command's counts, and the corners drawn so far are those of one more command |
| Renderers.Renderer.IssueCommands | LuaSTG/Core/Graphics/Renderer_D3D11.cpp:714-731 | the loop draws the whole list in order and moves both offsets behind it |
| Renderers.Renderer.FlushDraws | LuaSTG/Core/Graphics/Renderer_D3D11.cpp:705-734 | upload and draws show exactly what was pending and queue exactly the commands of the specification |
| Renderers.Renderer.BatchFlush | LuaSTG/Core/Graphics/Renderer_D3D11.cpp:703-740 | everything pending is shown (or dropped if discarding), one empty command for the current texture is open, and the abstract state is unchanged |
| Renderers.Renderer.NewCommand | LuaSTG/Core/Graphics/Renderer_D3D11.cpp:1136-1148 | a new command, after a flush if the list has no room for one; together with SetTexture and BatchFlush it terminates |
| Renderers.Renderer.SetTexture | LuaSTG/Core/Graphics/Renderer_D3D11.cpp:1130-1154 | merges into the last command for an equal view, else opens one; a texture is kept for another of the same view; inside a batch the open command always has the current texture |
| Renderers.Renderer.SetOrtho | LuaSTG/Core/Graphics/Renderer_D3D11.cpp:920-945 | a setter that changes only the camera of the abstract state; inside a batch the matrix buffer then holds the projection with the box's edges; the camera comes into step when everything is rebound |
| Renderers.Renderer.SetPerspective | LuaSTG/Core/Graphics/Renderer_D3D11.cpp:946-1000 | the same, with view and lens as given and the camera position block: from the eye along the direction is the point looked at |
| Renderers.Renderer.SetViewport | LuaSTG/Core/Graphics/Renderer_D3D11.cpp:1002-1020 | the same for the viewport: what is bound reaches from one corner of the box to the other, with its depth range |
| Renderers.Renderer.SetScissorRect | LuaSTG/Core/Graphics/Renderer_D3D11.cpp:1021-1037 | the same for the scissor rectangle: each edge bound is the one given, cut towards zero |
| Renderers.Renderer.SetViewportAndScissorRect | LuaSTG/Core/Graphics/Renderer_D3D11.cpp:1038-1044 | binds both again and changes nothing an unbatched renderer would see |
| Renderers.Renderer.SetVertexColorBlendState | LuaSTG/Core/Graphics/Renderer_D3D11.cpp:1046-1056 | the same for the vertex colour mode |
| Renderers.Renderer.SetFogState | LuaSTG/Core/Graphics/Renderer_D3D11.cpp:1057-1091 | the same for fog: both shaders, and the fog block with the colour out of 255 and the range from near to far |
| Renderers.Renderer.SetDepthState | LuaSTG/Core/Graphics/Renderer_D3D11.cpp:1092-1102 | the same for depth |
| Renderers.Renderer.SetBlendState | LuaSTG/Core/Graphics/Renderer_D3D11.cpp:1103-1114 | the same for blending |
| Renderers.Renderer.InitState | LuaSTG/Core/Graphics/Renderer_D3D11.cpp:621-646 | whatever was bound before, afterwards the device holds what the caches prescribe |
| Renderers.Renderer.BeginBatch | LuaSTG/Core/Graphics/Renderer_D3D11.cpp:827-864 | a coherent device, an open command, and the same abstract state |
| Renderers.Renderer.EndBatch | LuaSTG/Core/Graphics/Renderer_D3D11.cpp:865-872 | everything is shown and no texture is selected |
| Renderers.Renderer.Flush | LuaSTG/Core/Graphics/Renderer_D3D11.cpp:873-876 | everything is shown and the abstract state is unchanged |
| Renderers.Renderer.MakeRoom | LuaSTG/Core/Graphics/Renderer_D3D11.cpp:1158-1161 | room for the call within capacity, after a flush if needed |
| Renderers.Renderer.Commit | LuaSTG/Core/Graphics/Renderer_D3D11.cpp:1162-1176 | data in place and counted is one draw call made at once |
| Renderers.Renderer.DrawTriangle | LuaSTG/Core/Graphics/Renderer_D3D11.cpp:1156-1177 | draws the three vertices in order under the state current at the call |
| Renderers.Renderer.DrawQuad | LuaSTG/Core/Graphics/Renderer_D3D11.cpp:1182-1207 | draws 0 1 2 and 0 2 3 under the state current at the call |
| Renderers.Renderer.DrawRaw | LuaSTG/Core/Graphics/Renderer_D3D11.cpp:1212-1242 | refuses what exceeds a capacity, else draws the call's own vertices and indices |
| Renderers.Renderer.DrawRequest | LuaSTG/Core/Graphics/Renderer_D3D11.cpp:1243-1269 | hands out the end of the list and the index offset for it, counted in the open command |
| Renderers.Renderer.FillRequest | LuaSTG/Core/Graphics/Renderer_D3D11.cpp:1258-1266 | filling that space is one draw call made when the space was requested |
| Renderers.Renderer.Reserve | LuaSTG/Core/Graphics/Renderer_D3D11.cpp:1258-1266 | counting the space first leaves everything before it as it was |
| Renderers.Renderer.ClearRenderTarget | LuaSTG/Core/Graphics/Renderer_D3D11.cpp:878-896 | comes after every draw made before it |
| Renderers.Renderer.ClearDepthBuffer | LuaSTG/Core/Graphics/Renderer_D3D11.cpp:897-909 | comes after every draw made before it |
| Renderers.Renderer.SetRenderAttachment | LuaSTG/Core/Graphics/Renderer_D3D11.cpp:910-918 | earlier draws go to the old target, later ones to the new |
| Renderers.Renderer.DrawPostEffect | LuaSTG/Core/Graphics/Renderer_D3D11.cpp:1297-1494 | on success the batch is open again and the device coherent, although its state was cleared; without a target, or if the upload fails, nothing is drawn and no batch is open, and in the second case no target either |
| Renderers.Renderer.DrawModel | LuaSTG/Core/Graphics/Renderer_D3D11.cpp:1678-1699 | the batch is open again and coherent, whatever the model left bound |
| Coherence.LookWhenSynced | LuaSTG/Core/Graphics/Renderer_D3D11.cpp:720-727 | a draw is shaded as the state prescribes if and only if every part of the device agrees with the caches |
| Coherence.OrthoUpdate | LuaSTG/Core/Graphics/Renderer_D3D11.cpp:920-945 | the update brings the camera into step and no other part out of it |
| Coherence.PerspectiveUpdate | LuaSTG/Core/Graphics/Renderer_D3D11.cpp:946-1000 | the same, with the camera position |
| Coherence.FogUpdate | LuaSTG/Core/Graphics/Renderer_D3D11.cpp:1057-1091 | fog block, vertex shader and pixel shader come into step together and no other part falls out |
| Coherence.SyncedMeans | LuaSTG/Core/Graphics/Renderer_D3D11.cpp:621-646 | a coherent device, slot by slot and value by value: the batch's own buffers, layout and shaders, and viewport, scissor, matrix, camera and fog as the state gives them |
| Graphics.PrescribedMeans | LuaSTG/Core/Graphics/Renderer_D3D11.cpp:920-1114 | the same for the look that a state prescribes, texture, sampler and alpha type included |
| FlushSteps.BoundLook | LuaSTG/Core/Graphics/Renderer_D3D11.cpp:685-702 | a coherent device bound for a texture draws under the prescribed look |
| FlushSteps.ProgressDraw | LuaSTG/Core/Graphics/Renderer_D3D11.cpp:720-727 | one more draw adds its corners and its command and keeps everything the flush has kept so far |
| FlushSteps.FlushStep | LuaSTG/Core/Graphics/Renderer_D3D11.cpp:714-731 | a command's draw at the running offsets fetches that command's corners, and a skipped command has none |
| FlushSteps.CommandFetched | LuaSTG/Core/Graphics/Renderer_D3D11.cpp:714-731 | every vertex a command's draw asks for is in the buffers |
| DrawLists.AppendMeansOwn | LuaSTG/Core/Graphics/Renderer_D3D11.cpp:1212-1242 | a draw call merged into a command means the corners the command had, then those of the call on its own |
| DrawLists.IndicesOwnIff | LuaSTG/Core/Graphics/Renderer_D3D11.cpp:1212-1242 | a draw call sees no vertex of the calls before and behind it in its command, whatever they are, exactly when each index is of its own vertices or in the range from the capacity on that no 16-bit sum brings back |
| DrawLists.WrappedIndex | LuaSTG/Core/Graphics/Renderer_D3D11.cpp:1226-1236 | behind one vertex of another call, index 65535 is stored as 0 and fetches that vertex |
| IndexRuns.IndexRunsIff | LuaSTG/Core/Graphics/Renderer_D3D11.cpp:652-740 | for any draw call: every run of it, of calls with indices of their own and of flushes shows each call by itself, fetched from the vertex memory as it is, exactly when its indices stay apart in that sense or it is refused |
| IndexRuns.TrespassSeen | LuaSTG/Core/Graphics/Renderer_D3D11.cpp:1212-1242 | the failing runs: behind other vertices if the index comes back by wrapping, else in front of them |
| IndexRuns.ApartFetched | LuaSTG/Core/Graphics/Renderer_D3D11.cpp:714-731 | indices that stay apart fetch the list's own vertices, or nothing beyond the end of the buffer |
| IndexRuns.RawRunIsBatched | LuaSTG/Core/Graphics/Renderer_D3D11.cpp:703-740 | with indices of their own, these runs are those of the batched specification |
| DrawLists.AppendWellFormed | LuaSTG/Core/Graphics/Renderer_D3D11.hpp:64-91 | counts still sum to the list sizes, indices stay below their command's vertex count, and no 16-bit sum wraps |
| DrawLists.CornersUnderExtension | LuaSTG/Core/Graphics/Renderer_D3D11.cpp:1156-1242 | data added behind a list changes nothing its commands mean |
| DrawLists.CommandInRange | LuaSTG/Core/Graphics/Renderer_D3D11.cpp:714-731 | every command of a well-formed list keeps to its own vertices |
| DrawLists.NoVerticesNoIndices | LuaSTG/Core/Graphics/Renderer_D3D11.cpp:177-212 | a list without vertices has no indices |
| UploadRing.UploadHolds | LuaSTG/Core/Graphics/Renderer_D3D11.cpp:652-684 | after an upload both halves lie at the offsets of the current memory, within capacity |
| UploadRing.DrawFetchesCommand | LuaSTG/Core/Graphics/Renderer_D3D11.cpp:714-731 | an indexed draw at the command's offsets fetches exactly the command's corners |
| UploadRing.FlushKeepsFrontier | LuaSTG/Core/Graphics/Renderer_D3D11.cpp:177-212 | the space behind the offsets stays unused exactly when no restart meets an empty half of memory in use |
| UploadRing.UploadGrows | LuaSTG/Core/Graphics/Renderer_D3D11.cpp:177-212 | while that space is unused, or there is no room to append vertices, an upload only adds to the memory |
| UploadRing.FlushKeepsGuarded | LuaSTG/Core/Graphics/Renderer_D3D11.cpp:652-684 | a flush keeps it so unless it brings vertices without indices and leaves room |
| UploadRing.QueueGrows | LuaSTG/Core/Graphics/Renderer_D3D11.cpp:714-731 | issued draws read the same data from memory that has only grown |
| UploadRing.UploadReplays | LuaSTG/Core/Graphics/Renderer_D3D11.cpp:652-684 | an upload leaves every issued draw reading what was uploaded for it |
| UploadRing.OverwriteUnseenIff | LuaSTG/Core/Graphics/Renderer_D3D11.cpp:177-212 | an index write without discard, of any indices a list with that many vertices can hold, goes unnoticed by every issued draw exactly when each draw reading there finds the same vertex whatever the index |
| UploadRing.RestartSafeIff | LuaSTG/Core/Graphics/Renderer_D3D11.cpp:186-199 | after a restart the issued draws are safe from the indices of any next list that fits exactly when the restart brought indices of its own, or they would find the same vertices whatever the indices |
| Triangles.AppendShapes | LuaSTG/Core/Graphics/Renderer_D3D11.cpp:1212-1242 | a draw call merged into a command is assembled together with what was there |
| Triangles.QueuedShapes | LuaSTG/Core/Graphics/Renderer_D3D11.cpp:714-731 | the draws of a flush show the triangles of the list, command by command |
| Triangles.FlushShapes | LuaSTG/Core/Graphics/Renderer_D3D11.cpp:703-740 | a flush changes no triangle drawn so far |
| Triangles.AssembledGrows | LuaSTG/Core/Graphics/Renderer_D3D11.cpp:714-731 | issued draws show the same triangles from memory that has only grown |
| Triangles.StepEmits | LuaSTG/Core/Graphics/Renderer_D3D11.cpp:878-1269 | what each call by itself sends to the GPU |
| MessageQueue.EveryInterleaving | imgui/backend/imgui_impl_win32ex.cpp:72-121 | at every point of every interleaving, what was read is the beginning of what was stored, in order; free, ready and held permits sum to 256; no release overfills a semaphore |
| MessageQueue.NeverSameSlot | imgui/backend/imgui_impl_win32ex.cpp:72-121 | the two threads never touch one slot at once |
| MessageQueue.RefusedIff | imgui/backend/imgui_impl_win32ex.cpp:81-102 | a write is refused exactly when all slots are taken, a read exactly when no announced message is left |
| MessageQueue.IdleIsQueue | imgui/backend/imgui_impl_win32ex.cpp:72-121 | with both threads idle the ring from the reader's slot on is the unread messages in order |
| MessageQueue.NextKeepsInv | imgui/backend/imgui_impl_win32ex.cpp:72-121 | every micro-step of either thread keeps the invariant |
| MessageQueue.WrittenAreAccepted | imgui/backend/imgui_impl_win32ex.cpp:72-121 | over any interleaving, from any state: the messages stored and on their way are those of the writes that were not refused, in their order |
| MessageQueue.ReadsWhatWasWritten | imgui/backend/imgui_impl_win32ex.cpp:72-121 | so what was read is the beginning of what the callers wrote, and no more than 256 messages are in between |
| MessageQueue.FlagLoadFreshIff | imgui/backend/imgui_impl_win32ex.cpp:122-152 | a reader copies a stored message exactly when the writer is not between flag and message of that slot |
| MessageQueue.FlagCleanRunsAreFifo | imgui/backend/imgui_impl_win32ex.cpp:122-152 | every interleaving without such a copy is first in, first out, within 256 slots |
| MessageQueue.FlagCleanIff | imgui/backend/imgui_impl_win32ex.cpp:122-152 | an interleaving has no such copy exactly when at no point more was loaded than stored |
| MessageQueue.FlagRace | imgui/backend/imgui_impl_win32ex.cpp:130-151 | an interleaving in which the reader takes what the slot held before |
| MessageQueue.FlagNextKeepsInv | imgui/backend/imgui_impl_win32ex.cpp:122-152 | every micro-step of the flag ring keeps its invariant: the flags up are the slots between reader and writer |
| MessageQueue.FlagWrittenAreAccepted | imgui/backend/imgui_impl_win32ex.cpp:122-152 | over any interleaving the messages stored and on their way are those of the writes that were not refused |
| MessageQueue.FlagQueue.Write | imgui/backend/imgui_impl_win32ex.cpp:130-140 | appends to a FIFO of 256, refused exactly when full |
| MessageQueue.FlagQueue.Read | imgui/backend/imgui_impl_win32ex.cpp:141-151 | takes the oldest message, refused exactly when empty |
| MessageQueue.FlagQueue.Drain | imgui/backend/imgui_impl_win32ex.cpp:644-657 | one pass takes everything that was there, in order |
| Csv.Decode | external/lua-csv/lua_csv.cpp:23-121 | refuses empty separators, else appends the table the scan specification gives, and tolerates a missing last terminator |
| Csv.ScanQuoted | external/lua-csv/lua_csv.cpp:86-111 | a quoted text with doubled borders is read back byte for byte, up to its closing border, whatever stands behind that but another border |
| Csv.ScanBare | external/lua-csv/lua_csv.cpp:53-83 | so is bare text in which neither separator occurs, byte for byte, up to whatever follows |
| Csv.NoBorderHere | external/lua-csv/lua_csv.cpp:86-111 | inside quotes a border that does not overlap itself is seen only where one was written |
| Csv.ScanRows | external/lua-csv/lua_csv.cpp:50-112 | printed rows are read as rows and leave the decoder as it was |
| Csv.RoundTrip | external/lua-csv/lua_csv.cpp:23-121 | decoding the printed text of a non-empty table of non-empty rows gives the table, for separators and borders of any length: any bytes between borders, bare bytes behind them or by themselves, as long as no separator occurs in what is bare |
| Csv.PlainRowsFit | external/lua-csv/lua_csv.cpp:50-112 | every table of fields that neither begin nor complete a separator can be printed so, if the terminator does not begin the cell separator |
| Csv.LoneReturn | external/lua-csv/lua_csv.cpp:13-15 | under the default configuration a carriage return alone is a byte like any other |
| Csv.RoundTripUnterminated | external/lua-csv/lua_csv.cpp:114-118 | without the last terminator it still does, exactly when the text does not happen to end in one |
| Csv.EmptyLastRowLost | external/lua-csv/lua_csv.cpp:114-118 | which it does for a last row of one empty bare field: that row is lost |
| Csv.ScanUnclosed | external/lua-csv/lua_csv.cpp:86-111 | a quoted text without a closing border runs to the end, separators included |
| Csv.UnclosedField | external/lua-csv/lua_csv.cpp:86-118 | such a field becomes a row of its own, or is dropped, exactly when the text happens to end in the terminator |
| Csv.QuotedReadsBackIff | external/lua-csv/lua_csv.cpp:53-70 | with a border outside both separators, every fully quoted table reads back exactly when the cell separator is not the beginning of the terminator |
| Csv.SeparatorHidesTerminator | external/lua-csv/lua_csv.cpp:53-70 | if it is, one empty quoted field is read as no row at all |
| TextLayout.RenderText | LuaSTG/LuaSTG/AppFrameFontRenderer.cpp:33-161 | both passes: the buffer as it was; each line drawn from the left edge, against the right one, or with the same gap on both sides, a line height below the one before; the first from the top, or from where the counted height puts it |
| TextLayout.TextPlacedIff | LuaSTG/LuaSTG/AppFrameFontRenderer.cpp:71-88 | the drawn lines end at the rectangle for Bottom, and stand in its middle for Middle, exactly when the counting pass counts the lines drawn |
| TextLayout.RenderLines | LuaSTG/LuaSTG/AppFrameFontRenderer.cpp:90-158 | terminates, leaves the buffer as it was, and draws each line of the specification from the cut buffer, aligned, a line height apart (TextLayout.DrawingPlaced says where that is) |
| TextLayout.DrawingPlaced | LuaSTG/LuaSTG/AppFrameFontRenderer.cpp:118-158 | one drawing for each line, in order: Left begins at the left edge, Right ends at the right one, Center leaves equal gaps, and each is a line height below the one before |
| TextLayout.FindEnd | LuaSTG/LuaSTG/AppFrameFontRenderer.cpp:99-116 | finds the end and the extent of a line |
| TextLayout.LinesRejoin | LuaSTG/LuaSTG/AppFrameFontRenderer.cpp:90-158 | the lines with the consumed newlines between them are the text |
| TextLayout.LinesFit | LuaSTG/LuaSTG/AppFrameFontRenderer.cpp:99-116 | with word break each line fits the width or is one oversize glyph, and holds no newline |
| TextLayout.LineIsMaximal | LuaSTG/LuaSTG/AppFrameFontRenderer.cpp:99-116 | a line ends at the end, at a newline, or where the next glyph would make it too wide |
| TextLayout.WidthAdds | LuaSTG/LuaSTG/AppFrameFontRenderer.cpp:99-116 | the width of a text is what its glyphs add, wherever they stand in it |
| TextLayout.CountLines | LuaSTG/LuaSTG/AppFrameFontRenderer.cpp:33-69 | the counting pass computes its specification |
| TextLayout.TextSize | LuaSTG/LuaSTG/AppFrameFontRenderer.cpp:163-192 | the widest run between newlines, at least 0, and the line count |
| TextLayout.CountsAgree | LuaSTG/LuaSTG/AppFrameFontRenderer.cpp:33-192 | without word break the counting pass, the drawn lines and the size computation agree on the number of lines, and the width is the widest drawn line's |
| TextLayout.WidestLine | LuaSTG/LuaSTG/AppFrameFontRenderer.cpp:163-192 | the computed width is the widest drawn line's |
| TextLayout.CountsAgreeIff | LuaSTG/LuaSTG/AppFrameFontRenderer.cpp:33-158 | for any width and any font with a glyph that fits it, the counting pass counts the drawn lines of every text exactly when words do not break |
| TextLayout.TwoLinesAndOne | LuaSTG/LuaSTG/AppFrameFontRenderer.cpp:48-68 | two full lines and one glyph more are drawn as three lines and counted as two |
| TextLayout.CountsDisagree | LuaSTG/LuaSTG/AppFrameFontRenderer.cpp:48-68 | with word break they need not: a text counted as three lines and drawn as four |
| TextLayout.NeverCountsMore | LuaSTG/LuaSTG/AppFrameFontRenderer.cpp:33-158 | for every text, width and font whose glyphs do not go backwards, the counting pass never counts more lines than are drawn |
| TextLayout.OversizeAgrees | LuaSTG/LuaSTG/AppFrameFontRenderer.cpp:48-68 | a text of oversize glyphs alone is counted as it is drawn, although the counting pass skips glyphs |
| TextLayout.OversizeSkips | LuaSTG/LuaSTG/AppFrameFontRenderer.cpp:48-68 | behind a newline it skips the glyph after an oversize one: five lines drawn, four counted |
| ModelTraversal.MulAssociative | LuaSTG/Core/Graphics/Model_D3D11.cpp:805-819 | matrix products may be regrouped |
| ModelTraversal.StackProduct | LuaSTG/Core/Graphics/Model_D3D11.cpp:805-819 | multiplying down the stack and flipping is the node's transform times its parent's world transform |
| ModelTraversal.Model.WorldMatrix | LuaSTG/Core/Graphics/Model_D3D11.cpp:805-819 | local × parent × … × root × flip |
| ModelTraversal.Model.ProcessNode | LuaSTG/Core/Graphics/Model_D3D11.cpp:799-1048 | succeeds exactly when every primitive below loads; then the subtree's blocks are added in preorder under their world transforms and the stack is as before; else a beginning of them |
| ModelTraversal.Model.ProcessChildren | LuaSTG/Core/Graphics/Model_D3D11.cpp:1030-1047 | the same for the children of a node |
| ModelTraversal.Model.CreateModelBlock | LuaSTG/Core/Graphics/Model_D3D11.cpp:1049-1063 | the same for the roots of the scene |
| ModelTraversal.Model.Draw | LuaSTG/Core/Graphics/Model_D3D11.cpp:1482-1513 | draws opaque, masked and blended blocks, each in their order |
| ModelTraversal.PassesCoverIff | LuaSTG/Core/Graphics/Model_D3D11.cpp:1482-1513 | the passes draw every block exactly once exactly when none is both masked and blended |
| ModelTraversal.PreorderOneMode | LuaSTG/Core/Graphics/Model_D3D11.cpp:1015-1022 | traversal never makes such a block |
| ModelTraversal.SceneDrawnOnce | LuaSTG/Core/Graphics/Model_D3D11.cpp:1049-1063 | so a scene is drawn with every primitive exactly once |
| ModelTraversal.SceneOrder | LuaSTG/Core/Graphics/Model_D3D11.cpp:1015-1513 | a loaded scene is drawn opaque primitives first, then masked, then blended ones, each in preorder, each primitive by its identity under the world transform of its node |
| ModelTraversal.PointThroughStack | LuaSTG/Core/Graphics/Model_D3D11.cpp:805-819 | a node's matrix takes a point through its own transform, then each parent's, and mirrors the z axis last |
| ModelTraversal.PointMirrored | LuaSTG/Core/Graphics/Model_D3D11.cpp:805-819 | under an empty stack an identity node takes (x, y, z) to (x, y, -z) |
| LuaCalls.LuaState.StackTraceback | LuaSTG/LuaSTG/AppFrameLua.cpp:72-105 | if the global debug is a table whose traceback function succeeds for the error and level 2, its first result (or nil) is on top; otherwise the stack is unchanged; nothing below is touched |
| LuaCalls.LuaState.PCall | LuaSTG/LuaSTG/AppFrameLua.cpp:241-259 | a protected call takes function and arguments away and leaves the results asked for, or one error, which the handler has made its traceback of in the same terms |
| LuaCalls.LuaState.SafeCallScript | LuaSTG/LuaSTG/AppFrameLua.cpp:107-159 | the stack as before, whatever happens, and success exactly when the source compiles and runs |
| LuaCalls.LuaState.SafeCallGlobalFunction | LuaSTG/LuaSTG/AppFrameLua.cpp:172-204 | exactly the results on success, nothing on failure |
| LuaCalls.LuaState.SafeCallGlobalFunctionB | LuaSTG/LuaSTG/AppFrameLua.cpp:207-276 | for all argument and result counts: the stack below the arguments untouched, nothing on failure or without such a function, and on success exactly the results, exactly when a number of results is asked for (or all of them are the handler itself) |
| LuaCalls.LuaState.PlaceBelowArguments | LuaSTG/LuaSTG/AppFrameLua.cpp:236-240 | the two rotations put handler and function below the arguments |
| LuaCalls.ExactIff | LuaSTG/LuaSTG/AppFrameLua.cpp:262-274 | every call, on every machine and stack, leaves exactly its results, exactly when the caller asks for a number of them |
| LuaCalls.ReturnsResultsIff | LuaSTG/LuaSTG/AppFrameLua.cpp:262-274 | for one call: what is left equals its results exactly then, or if they are nothing but the handler itself |
| LuaCalls.HandlerLeft | LuaSTG/LuaSTG/AppFrameLua.cpp:262-274 | the failing input: a function that returns nil, called without arguments for all its results, succeeds and leaves the handler instead of the nil |
| FrameSchedule.WholeRun | LuaSTG/Core/ApplicationModel_Win32.cpp:182-229 | over any run: updates times ticks per frame never exceed the elapsed ticks, the schedule point never passes the last timestamp, the deltas telescope |
| FrameSchedule.RateBound | LuaSTG/Core/ApplicationModel_Win32.cpp:182-251 | the same from a new target on |
| FrameSchedule.UpdateAdvances | LuaSTG/Core/ApplicationModel_Win32.cpp:182-229 | the schedule point moves on by at least a frame, and a catch-up leaves a lag under ten frames |
| FrameSchedule.StartsOverIff | LuaSTG/Core/ApplicationModel_Win32.cpp:182-229 | an update starts over exactly when it is late by ten frames or more; otherwise the schedule moves on by exactly one frame |
| FrameSchedule.FrameTicks | LuaSTG/Core/ApplicationModel_Win32.cpp:235-251 | ticks per frame are the rounded-down quotient of clock rate and target |
| FrameSchedule.Controller.Update | LuaSTG/Core/ApplicationModel_Win32.cpp:182-229 | early, it returns the first reading not before the frame is due; late by less than ten frames it returns at once, one frame on; later than that it starts over; and it returns the time since the last update |
| FrameSchedule.Controller.SetTargetFps | LuaSTG/Core/ApplicationModel_Win32.cpp:235-251 | a different target starts a new schedule at the current time |
| FpsHistory.Recorder.UpdateData | LuaSTG/Core/ApplicationModel_Win32.cpp:14-57 | records one rate; the statistics are those of the window, with least ≤ average ≤ greatest; the total time is elapsed ticks over frequency and the sum over all rates recorded |
| FpsHistory.Recorder.Record | LuaSTG/Core/ApplicationModel_Win32.cpp:16-23 | the ring stays the tail of the full history |
| FpsHistory.Recorder.Statistics | LuaSTG/Core/ApplicationModel_Win32.cpp:25-54 | sum, least and greatest over the shortest recent run of a quarter second, or all retained rates |
| FpsHistory.Recorder.IndexFPS | LuaSTG/Core/ApplicationModel_Win32.cpp:9-12 | the rate that many frames ago |
| FpsHistory.WindowIsUnique | LuaSTG/Core/ApplicationModel_Win32.cpp:34-46 | there is only one such run |
| FpsHistory.AverageBetween | LuaSTG/Core/ApplicationModel_Win32.cpp:34-47 | the average and every rate of a run lie between its least and greatest |
| FpsHistory.ExtremesAttained | LuaSTG/Core/ApplicationModel_Win32.cpp:34-47 | least and greatest are rates of the run |
| FpsHistory.NewestRate | LuaSTG/Core/ApplicationModel_Win32.cpp:16-23 | a new rate adds itself to the sum, and the time of one frame to the time, of the run before it |
| KeyboardState.SetKeyIsSet | LuaSTG/Platform/Keyboard.cpp:45-71 | setting or clearing a bit adds or removes that key and no other |
| KeyboardState.KeyIsBit | LuaSTG/Platform/Keyboard.cpp:45-50 | a key is bit vk mod 32 of word vk / 32 |
| KeyboardState.Keyboard.SetKey | LuaSTG/Platform/Keyboard.cpp:62-71 | the same, in place |
| KeyboardState.Keyboard.ProcessMessage | LuaSTG/Platform/Keyboard.cpp:249-320 | the bitmaps stand for the key sets after the message |
| KeyboardState.Keyboard.Reset | LuaSTG/Platform/Keyboard.cpp:88-112 | nothing is down, pressed or released |
| KeyboardState.Keyboard.ResetFrame | LuaSTG/Platform/Keyboard.cpp:113-154 | what is down stays, what was pressed and released is forgotten |
| KeyboardState.Keyboard.GetState | LuaSTG/Platform/Keyboard.cpp:216-246 | a snapshot of the state as it was, and a new frame if one begins |
| KeyboardState.FrameReportsExactly | LuaSTG/Platform/Keyboard.cpp:249-320 | over any run of messages, pressed and released are exactly the translated keys since the frame began or the last reset |
| KeyboardState.DownIff | LuaSTG/Platform/Keyboard.cpp:249-320 | over any run a key is down exactly when it was pressed, by its own code or as what a code is translated to, and not let go of since: by a release, by generic Shift for its sides, or by a reset |
| KeyboardState.LastKeys | LuaSTG/Platform/Keyboard.cpp:302-319 | the last keys are the translated keys of the last press and release since the frame began or the last reset, or none |
| KeyboardState.TranslatedMeans | LuaSTG/Platform/Keyboard.cpp:38-43 | bit 24 tells right Shift, Control and Alt, and the Enter key of the number pad, by their codes; other keys stay what they are |
| KeyboardState.ShiftIsEither | LuaSTG/Platform/Keyboard.cpp:282-301 | if raw left and right codes never come, Shift is down exactly when one of the two Shift keys is |
| KeyboardState.SidesAgreeIff | LuaSTG/Platform/Keyboard.cpp:282-301 | after any run of messages Control, and Alt, agrees with its two sides exactly when the last message about it did not let go of one side while the other was held |
| KeyboardState.SidesAfter | LuaSTG/Platform/Keyboard.cpp:282-301 | what one message does to that, from any state |
| KeyboardState.BothControls | LuaSTG/Platform/Keyboard.cpp:282-301 | a run in which it does not |
| DrawListMerge.Backend.RenderDrawData | imgui/backend/imgui_impl_dx11.cpp:168-333 | nothing for an empty display, no lists if a texture cannot be updated, and else merged lists draw, clip, call back and reset exactly like lists drawn from buffers of their own |
| DrawListMerge.Backend.UpdateTextures | imgui/backend/imgui_impl_dx11.cpp:177-183 | textures are updated in order up to the first that cannot be |
| DrawListMerge.Backend.RunLists | imgui/backend/imgui_impl_dx11.cpp:287-333 | the running offsets are those of each list in the merged buffers |
| DrawListMerge.Backend.Upload | imgui/backend/imgui_impl_dx11.cpp:218-226 | the lists lie one behind the other inside the buffers |
| DrawListMerge.Backend.Grow | imgui/backend/imgui_impl_dx11.cpp:186-210 | a buffer that is there and large enough stays; else a new one has room for the frame and 5000 vertices, or 10000 indices, more |
| DrawListMerge.Backend.RunList | imgui/backend/imgui_impl_dx11.cpp:295-330 | the commands of one list at its offsets, in order |
| DrawListMerge.MergedHolds | imgui/backend/imgui_impl_dx11.cpp:218-226 | each list's data is found whole at the sum of the sizes before it |
| DrawListMerge.FetchesOwn | imgui/backend/imgui_impl_dx11.cpp:325-332 | a draw with global offsets fetches exactly what it would from its own list |
| DrawListMerge.ListRunsAlike | imgui/backend/imgui_impl_dx11.cpp:293-333 | so does every command of a list |
| DrawListMerge.OwnDraw | imgui/backend/imgui_impl_dx11.cpp:314-328 | a draw of a list on its own shows the vertices its indices name behind its first vertex, in order, with its texture and scissor |
| DrawListMerge.InListIff | imgui/backend/imgui_impl_dx11.cpp:325-328 | a draw finds every vertex it asks for exactly when its indices and what they name are in its list |
| DrawListMerge.ClippedMeans | imgui/backend/imgui_impl_dx11.cpp:315-323 | each scissor edge is the given one moved, scaled and cut towards zero; nothing is drawn exactly when the rectangle has no width or height left |
| DrawListMerge.UpdatedIff | imgui/backend/imgui_impl_dx11.cpp:177-183 | exactly those textures are updated that are out of date and not behind one that failed |
| Spreadsheet.ColumnOf | external/lua-csv/lua_xlsx.cpp:148-162 | the bijective base 26 number of the letters, any case, digits ignored; below 2^31 up to six letters |
| Spreadsheet.DigitIs | external/lua-csv/lua_xlsx.cpp:148-162 | the letters of the alphabet count 1 to 26, in either case |
| Spreadsheet.LettersOnly | external/lua-csv/lua_xlsx.cpp:148-162 | the case of a letter makes no difference, and a character that is no letter none at all |
| Spreadsheet.ColumnOrder | external/lua-csv/lua_xlsx.cpp:148-162 | columns are numbered in shortlex order and no two alike |
| Spreadsheet.ColumnBijective | external/lua-csv/lua_xlsx.cpp:148-162 | every number is the number of exactly one column |
| Spreadsheet.ColumnBound | external/lua-csv/lua_xlsx.cpp:148-162 | six letters do not overflow 32 bits |
| Spreadsheet.ReadRow | external/lua-csv/lua_xlsx.cpp:313-398 | each cell, read by its type, at its place, empty cells in between, nothing else |
| Spreadsheet.ReadCell | external/lua-csv/lua_xlsx.cpp:324-395 | column of the last coordinate, last value read as shared string, number or boolean |
| Spreadsheet.ValueMeans | external/lua-csv/lua_xlsx.cpp:359-390 | in a cell of one type: shared string by number, for unknown types too; "1" is true and everything else false; a number is its text |
| Spreadsheet.CoordIsLast | external/lua-csv/lua_xlsx.cpp:324-353 | of several coordinates the last counts |
| Spreadsheet.ReadAttributes | external/lua-csv/lua_xlsx.cpp:324-353 | which types a cell claims, an unknown one counting as string |
| Spreadsheet.PlacesAreColumnsIff | external/lua-csv/lua_xlsx.cpp:350-357 | every cell is at index column − 1 exactly when the columns increase from at least 1 |
| Spreadsheet.PlaceIsFurthest | external/lua-csv/lua_xlsx.cpp:350-357 | in every row a cell is as far right as it or a cell before it asks for, one more for each in between |
| Spreadsheet.Square | external/lua-csv/lua_xlsx.cpp:412-426 | all rows end with the length of the longest, old cells first, empty ones behind |

## Left out

- Map and device failures: every upload is taken to succeed. After a failed one the original clears the list without opening a command again, and the `command.size > 0` conditions no longer follow.
- Device loss, creation of Direct3D objects, shader sources and compilation, HRESULT paths: foreign calls.
- Renderers.Renderer.DrawRaw: asks for indices below the number of vertices; the original does not look. With other indices a call shows what it would by itself exactly when they stay apart from other calls' vertices (IndexRuns.IndexRunsIff, for runs of draw calls and flushes under one state; DrawLists.WrappedIndex is an index that does not).
- A texture does not change its sampler or alpha type while draws with it are pending.
- BatchRuns.RunBatch: later execution is promised for careful draw calls and triangles for clean ones; Deferral.DeferralIff and TriangleRuns.TrianglesIff say why. A post effect in a run has a colour target and uploads its data; otherwise no batch is open after it.
- Renderers.Renderer.DrawPostEffect: the effect's own draws are one opaque event, and what a failed one had bound again is arbitrary. The second post effect (Renderer_D3D11.cpp:1495-1647) has the same skeleton and is not repeated.
- Renderers.Renderer.DrawModel: the model's own draws are one opaque event.
- The camera position block counts only under a perspective camera; an orthographic one leaves it as it was, as the code does.
- The original can hold several vertex and index buffer pairs, but creates one; the model has one. The world matrix buffer is bound but its contents never change in a batch.
- Floating point: coordinates, widths, rates and matrices are reals; rounding, infinities and NaN are not modelled, and matrices of the renderer stay symbolic.
- MessageQueue.FlagCleanRunsAreFifo: not every interleaving of the flag ring is first in, first out; MessageQueue.FlagRace is one that is not. Weak memory ordering is not modelled, and steps are single reads and writes of a slot, an index or a flag.
- Csv.Decode: the text must be at least as long as the terminator, as the original looks there without asking; a NUL byte in a separator would end the comparison early and is not modelled. The round trips are for borders that do not overlap themselves, as no single byte does, and of which neither separator shares the first byte; other configurations are decoded as the code does. The two overloads that forward to this one are left out.
- TextLayout.RenderText: UTF-8 conversion, kerning and the font's own scaling are left out; heights and widths are given in the scale drawn.
- ModelTraversal.Model.ProcessNode: vertex data, buffers, normal matrices and materials are an identity and a flag for success; failures part-way through one primitive are failures before it. A node graph with a cycle is not accepted.
- LuaCalls.LuaState.SafeCallGlobalFunctionB: asked for all results it drops the last one and leaves the handler below them, as the code does; LuaCalls.HandlerLeft is such a call.
- LuaCalls.LuaState.PCall: called functions do not change globals or the stack below them; logging and message boxes are left out, and so is what callers do after a failure.
- FrameSchedule.Controller.Update: the clock does not run backwards and the waiting loop sees a reading that is late enough; sleeping, 64-bit overflow and a target of zero are left out.
- FpsHistory.Recorder.UpdateData: the clock advances strictly; the counter-wrap branch of the caller, which counts a frame without recording it, is left out.
- KeyboardState.Keyboard.GetState: atomics and the variant for another thread are left out, and so is the padding of the state record.
- DrawListMerge.Backend.RenderDrawData: saving and restoring the device state, what a texture update does, failures to create or map a buffer, and integer overflow are left out; the given totals are taken to be the sums of the list sizes, as ImGui computes them.
- Spreadsheet.ReadRow: reading the archive and the XML is left out; references to shared strings are taken to name one, since the original does not look, and how the C library reads a number is a parameter.
- Spreadsheet.ColumnOf: more than six letters overflow the original's int.
- Windows, title bars, message boxes, controllers, Steam and Discord, archives and file functions: user interface and thin wrappers.
