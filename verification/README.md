# Canvas capture and text reveal: a Dafny model

This project models the logic of a small browser demo. The demo draws drifting meteor trails and a typewriter text on a canvas. It can record that canvas to a `animation.webm` download. Three parts of it are modelled:

- **The capture controller** (`CanvasRecorder`, module `Recorder`). It holds at most one browser media encoder, a buffer of encoded chunks and an `isRecording` flag. It has four operations: start, the encoder's data-available callback, stop and download. The encoder is an abstract object with a state (`Inactive` or `Recording`) and the options it was opened with. Browser faults are parameters: the step at which starting throws, and whether saving throws.
- **The page script** (module `Page`, class `PageState`). It holds the module-level reveal variables of `main.js` and the page's one recorder. It has the per-frame text update and the record and download button handlers. The text update is specified by the value-level function `TextReveal.Tick`, and the reveal's properties are proved about `Tick` (module `TextReveal`).
- **The meteor mesh layout** (module `MeteorMesh`). This is the integer arithmetic of the mesh construction (its index buffer) and of the per-frame position update (the array slots it writes).

Time is a `nat` parameter in milliseconds, in place of the clock. Each handler call is one atomic step.

Main results:

- `PageState.Valid` is preserved by every page operation. It says four things. The reveal runs only while the recorder's flag is set. The flag is only set while the recorder holds an encoder. If the recorder's current encoder runs, the flag is set. Both lines are prefixes of their target texts, and line 2 is begun only after line 1 is whole. So the page never calls stop without an encoder. `OnRecordClick` adds that the page never starts a recorder whose previous encoder still runs, so no replaced encoder is left running. The flag and the encoder can disagree the other way: an encoder that ends on its own leaves the flag set (`EncoderHaltsMidRecording`).
- A download holds the concatenation of the buffered chunks, in order (`ChunkPlacement`). `CaptureSession` shows a whole session from page load, including the chunks the encoder delivers after the stop: the file holds every delivered byte, in delivery order. When the delivered chunks hold no byte at all (none were delivered, or all were empty), there is no file.
- With calls at least 400 ms apart, the reveal completes after as many calls as there are characters left (`RunCompletes`).
- No mesh triangle joins two meteors, and every index names an existing vertex. Each frame writes every slot of the 4500-entry position array exactly once, in order.

## Model

Three definitions carry the model; the rows below state properties of them:

- `TextReveal.Tick` is one call of `updateText` (main.js:80-102) on the reveal variables, with the clock reading as a parameter.
- `Recorder.Concat` is the bytes of the blob built from the buffered chunks (`new Blob`, recorder.js:71).
- `MeteorMesh.MeshIndices` is the index buffer the mesh construction pushes for the first `n` meteors (main.js:177-182).

| member | source | states |
|---|---|---|
| `Recorder.MediaEncoder.constructor` | recorder.js:14-21 | A new encoder is inactive and keeps the frame rate, container/codec and bitrate it is opened with |
| `Recorder.MediaEncoder.Start` | recorder.js:40 | Starting an inactive encoder makes it record and records the requested timeslice |
| `Recorder.MediaEncoder.Stop` | recorder.js:52 | Stopping a recording encoder makes it inactive |
| `Recorder.MediaEncoder.Halt` | recorder.js:21-27 | The encoder can end on its own (track ended, encoding error) from any state; it is then inactive. The recorder attaches only a data handler, so nothing else changes |
| `Recorder.CanvasRecorder.constructor` | recorder.js:2-6 | A new recorder has no encoder, an empty buffer and `isRecording` false |
| `Recorder.CanvasRecorder.StartRecording` | recorder.js:8-48 | Without a canvas it rejects and changes nothing. A throw at capture leaves the buffer and encoder, a throw at encoder creation empties the buffer, a throw at start also installs the new inactive encoder; every throw clears `isRecording` and is re-raised. On success the buffer is empty and a fresh encoder records at 30 fps, vp8 webm, 2.5 Mbit/s, 100 ms slices; the previous encoder is not stopped |
| `Recorder.CanvasRecorder.OnDataAvailable` | recorder.js:23-27 | A chunk of positive size is appended at the end; an empty one leaves the buffer unchanged; nothing else changes, and no empty chunk is ever buffered |
| `Recorder.CanvasRecorder.StopRecording` | recorder.js:50-65 | Stops a recording encoder and clears `isRecording`, buffer untouched; with an inactive encoder it does nothing, not even clear `isRecording` (a second stop is a no-op; after the encoder ended on its own the flag stays set); with no encoder it throws (null dereference) and changes nothing |
| `Recorder.CanvasRecorder.DownloadVideo` | recorder.js:67-77 | An empty buffer gives no download; otherwise one `video/webm` file named `animation.webm` holding the in-order concatenation of the chunks, of their summed size; a save failure is re-raised; the buffer is only read |
| `Recorder.ConcatAppend` | recorder.js:71 | The blob of two runs of chunks is the concatenation of their blobs |
| `Recorder.ConcatLength` | recorder.js:71 | The blob's length is the sum of the chunk sizes |
| `Recorder.ChunkPlacement` | recorder.js:71 | Chunk k sits in the blob right after the bytes of chunks 0..k-1: no chunk is reordered, dropped or duplicated |
| `Recorder.ConcatSkipsEmpty` | recorder.js:24 | An empty chunk adds nothing to the blob |
| `TextReveal.TickGated` | main.js:80-86 | Before the reveal starts, or less than 100 ms after the last character, a call changes nothing |
| `TextReveal.TickStep` | main.js:88-101 | A call either changes nothing, or appends exactly the next target character to one line and records the call time; the time changes only when a character is appended |
| `TextReveal.TickKeepsRevealing` | main.js:88-101 | Both lines stay prefixes of "A new kind of" and "design tool", only grow, and line 2 is non-empty only once line 1 is whole |
| `TextReveal.TickLine2AfterLine1` | main.js:88-100 | Line 2 gains a character only when line 1 is complete, and line 1 is then unchanged |
| `TextReveal.TickPausesBeforeLine2` | main.js:92-96 | The first character of line 2 comes at least 400 ms after the last character of line 1 |
| `TextReveal.TickComplete` | main.js:88-101 | Once both lines are whole, a call changes nothing |
| `TextReveal.CompleteWhenNoneRemaining` | main.js:88 | A reveal in progress is complete exactly when no character is left to show |
| `TextReveal.TickProgress` | main.js:86-101 | A started, unfinished reveal called 400 ms or more after its last character shows one more character, stamped with the call time |
| `TextReveal.RunComplete` | main.js:80-102 | A complete reveal stays complete over any sequence of calls |
| `TextReveal.RunCompletes` | main.js:76-102 | A started reveal whose calls come at least 400 ms apart is complete after as many calls as characters remain |
| `Page.PageState.constructor` | main.js:13-76 | The page starts with empty lines (lines 13-14), the reveal stopped (line 17), a new recorder (line 19) and time 0 (line 76) |
| `Page.PageState.UpdateText` | main.js:80-102 | The per-frame update changes the reveal variables exactly as `Tick` does and keeps the page invariant |
| `Page.PageState.OnRecordClick` | main.js:108-131 | When not recording: both lines are cleared and the time stamped even if starting fails; the reveal starts exactly when the recorder starts; the replaced encoder was inactive. A failed start leaves the recorder as it was without a canvas, keeps the buffer and encoder on a capture failure, empties the buffer on an encoder-creation failure, and also installs a fresh idle encoder on a start failure. When recording: the reveal is stopped, lines and buffer kept, and the encoder ends inactive; the flag is cleared exactly when the encoder was still running. The page invariant holds after both |
| `Page.PageState.OnDownloadClick` | main.js:133-139 | A file is produced exactly when the buffer is non-empty and saving succeeds, and holds the concatenated chunks; a failure is swallowed |
| `Page.ConcatNonEmpty` | recorder.js:23-27 | Filtering out empty chunks leaves the blob unchanged |
| `Page.CaptureSession` | main.js:108-139 | Record, deliver chunks, stop, deliver the final chunks, download, from page load: the file holds the concatenation of all chunks delivered before and after the stop, or there is no file when they hold no byte |
| `Page.EncoderHaltsMidRecording` | main.js:109-129 | If the encoder ends on its own during a recording, every later press of the record button takes the stop branch and does nothing to the recorder: its flag stays set, the encoder stays inactive, and the reveal is stopped after the first press |
| `MeteorMesh.CreateMeteorLayout` | main.js:163-187 | The nested loops build exactly the index buffer `MeshIndices(30)` and push 1500 vertices |
| `MeteorMesh.IndicesBelowVertexCount` | main.js:177-191 | All 4320 entries of that buffer are below the 1500 vertices pushed |
| `MeteorMesh.TrailIndicesInBlock` | main.js:177-182 | Meteor i's first j segments give 6j entries, all between vertex 50i and 50i+2j+1 |
| `MeteorMesh.TrailIndicesAt` | main.js:177-182 | Entry r of segment s of meteor i is entry r of the two triangles (b, b+1, b+2), (b+1, b+3, b+2) with b = 50i + 2s |
| `MeteorMesh.MeshIndicesLayout` | main.js:163-187 | The buffer is meteor 0's run of 144 entries, then meteor 1's, and so on |
| `MeteorMesh.EntryOfMeteor` | main.js:163-187 | Entry x of meteor m's run is at buffer offset 144m + x |
| `MeteorMesh.TriangleWithinMeteor` | main.js:177-182 | Each triangle has three distinct vertices, all in its own meteor's block [50m, 50m+49]: no triangle joins two meteors |
| `MeteorMesh.MeshIndicesBounded` | main.js:177-182 | The first n meteors refer only to vertices below 50n |
| `MeteorMesh.FrameWriteOffsets` | main.js:219-244 | One frame writes position slots 0, 1, ..., 4499, each exactly once and in order: every write offset idx..idx+5 is inside the 4500-entry array, and the whole array is refreshed |

## Quirks of the code the model keeps

- `startRecording` replaces a running encoder without stopping it (recorder.js:20-21), and `StartRecording` says so. The old encoder's data events still reach the buffer, because the callback captures the recorder. The page never does this: `OnRecordClick` proves that the replaced encoder was already inactive.
- `stopRecording` on a fresh recorder dereferences null and throws (recorder.js:51-52), because `undefined !== 'inactive'`. `StopRecording` returns `Fail(NoEncoder)` in that case. The page only stops while recording, and the invariant then guarantees an encoder.
- There is no separate stopped state. The recorder has only the `isRecording` flag and the encoder's own state (recorder.js:2-6).
- `Recorder.CanvasRecorder.StopRecording`: on the stop path, `isRecording` is cleared only inside the guard on the encoder's state (recorder.js:51-53). The other place that clears it, `startRecording`'s catch (recorder.js:45), is never reached here, because the record button calls `startRecording` only when the flag is clear (main.js:109). No `onstop` or `onerror` handler is attached (recorder.js:21-27). So on this page, if the encoder ends on its own, the flag stays set for good, and the record button keeps taking the stop branch (main.js:109, 127-129). So no new recording can be started without reloading the page. `EncoderHaltsMidRecording` shows this.

## Left out

- Rendering: the three.js scene, camera, renderer, text geometry and font loading, and `updateTextGeometry`. These are foreign library calls and a network fetch. The reveal model keeps only the strings.
- Meteor positions, speeds, the wrap-around test and `getRandomStartPosition`. Also the colour, fade and width values. These are floating point and `Math.random`. Only the integer indices and offsets are modelled. `FrameWriteOffsets` records which slot each write goes to, not the value written.
- Browser APIs of the recorder: `captureStream`, `MediaRecorder`, `Blob`, object URLs and the anchor-click save. They become the abstract `MediaEncoder`, the `failsAt`/`saveFails` parameters and the `Artifact` record. Which fault the browser raises is not modelled, only the step at which it happens.
- The button label updates, the timed cleanup of the download link, and console logging. These are DOM side effects with no bearing on the state.
- `Page.PageState.OnDownloadClick`: the download button's `disabled` flag (recorder.js:37, 63) is not modelled. The page greys the button out while recording, but the model lets a download run at any time, including during a recording. So the model allows more than the page does, and every property proved holds for the page's runs too.
- `async`/`await`, `requestAnimationFrame` and event timing. Each handler call is one atomic step. The encoder's final data event after stop is a separate `OnDataAvailable` call. Interleavings inside one awaited handler are not modelled.
- `Recorder.CanvasRecorder.OnDataAvailable`: chunks are not attributed to the encoder that produced them. A leaked previous encoder's events look the same as the current one's.
- The encoder's `paused` state. Nothing in the program pauses it.
- `vite.config.js`: build and server configuration only, with no logic.
