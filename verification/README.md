# bmutility: a verified model of its sequential core

This project models three sequential parts of the bmutility helper library for
Sophon deep-learning accelerators in Dafny, and proves properties of them:

- **Tensor and network bookkeeping** (`bm_nn.dfy`, module `BmNN`; from `bmutility_nn.h`). This covers:
  - `bm_shape_t` equality and the NCHW/NHWC reshape layouts;
  - the `BMNNTensor` cache of shape, element count and byte size, as a class whose fields are refreshed in place;
  - the `BMNNNetwork` table of input and output tensors: arrays rebuilt per stage, two name-to-index maps, the stage search and the status of `forward`;
  - the `BMNNContext` list of network names.
- **The demuxer's reading state machine** (`stream_demuxer.dfy`, module `Demuxer`; from `stream_demuxer.cpp`). This covers:
  - `do_initialize`, `do_service`, `do_down`, `open_stream`, `close_stream` and the reader thread's dispatch loop, as methods of a class over the demuxer's fields;
  - the service loop, proved against a pure step function (`ServiceStep`, `RunService`), with lemmas about that function;
  - the dispatch loop, proved against a pure function of the fields (`DispatchStep`, `RunFrom`, `RunDispatch`), with lemmas about where it stops and how it retries a failed open.
- **NV12 frame to `bm_image`** (`bm_image.dfy`, module `BmImage`; from `bmutility_image.h`). `bmimage_from_avframe` is a pure function from the frame's fields to a status and the image it builds: format, strides and the list of attached planes.
- `c_int.dfy` (module `CInt`) holds C's truncating signed division; `wrappers.dfy` (module `Wrappers`) holds the `Option` type.

The following are inputs to the model:
- the results of the device runtime and ffmpeg calls: open, stream-info, read, seek, launch and sync, and the average frame rate each opened input reports;
- the clock readings.

Observer callbacks, sleeps and seeks are recorded as a sequence of events. The
reader thread is modelled as a method run over finite scripts of those results.

Constants that come from headers outside this repository are written out as follows:
- `BM_MAX_DIMS_NUM` = 8;
- the `bm_data_type_t` order (FLOAT32 = 0 … UINT32 = 7);
- `BM_SUCCESS` = 0;
- `AV_PIX_FMT_NV12` = 23;
- `AV_NUM_DATA_POINTERS` = 8;
- `AVERROR_EOF` = -541478725.

## Model

| member | source | states |
|---|---|---|
| BmNN.ShapesEqual | bmutility_nn.h:45-51 | true iff the ranks agree and the dims in use agree pairwise; dims past the rank are ignored |
| BmNN.Reshape4 | bmutility_nn.h:19-37 | both reshape helpers leave rank 4 with dims in argument order, [n, c, h, w] for NCHW and [n, h, w, c] for NHWC; the unused dims are untouched |
| BmNN.ProductConcat | bmutility_nn.h:103-104 | the element count of a concatenation of dims is the product of the two parts' counts |
| BmNN.ProductZeroIffZeroDim | bmutility_nn.h:103-104 | the element count is 0 exactly when some dim is 0 |
| BmNN.ElemBytes | bmutility_nn.h:109-126 | 4 bytes exactly for FLOAT32/UINT32/INT32, 2 exactly for INT16/UINT16/FLOAT16, 1 for every other dtype |
| BmNN.ShapeDiffersIffStale | bmutility_nn.h:89-98 | the rank-then-dims test of update_shape holds exactly when the cached shape differs from the dims in use |
| BmNN.RefreshedCacheIsCurrent | bmutility_nn.h:87-107 | after a refresh the test finds no change, so update_shape is idempotent |
| BmNN.NNTensor.constructor | bmutility_nn.h:128-137 | a new view starts with an empty cached shape, count 0 and size 0 |
| BmNN.NNTensor.UpdateShape | bmutility_nn.h:87-107 | returns true iff the rank or a dim in use changed; the cache then holds the dims in use; the count is their product (1 for rank 0) when changed and is untouched otherwise |
| BmNN.NNTensor.UpdateDtype | bmutility_nn.h:109-126 | the byte size becomes the element count times the dtype width on every call, since m_dtype stays -1; the cache stays valid |
| BmNN.NNTensor.GetCount | bmutility_nn.h:159-163 | refreshes the cache; returns the product of the current dims when they differ from the cached ones, and the cached count otherwise (so a rank-0 tensor never refreshed reports its initial 0) |
| BmNN.NNTensor.GetSize | bmutility_nn.h:165-169 | returns the dtype width times the element count, which is recomputed only when the dims changed and is the cached count otherwise |
| BmNN.NNTensor.SetDeviceMem | bmutility_nn.h:150-153 | writes the memory through to the network's tensor, changes no other tensor and returns 0 |
| BmNN.IndexMap | bmutility_nn.h:294-308 | the map built by `m[names[i]] = i` has exactly the names as keys and sends each name to a position holding it |
| BmNN.IndexMapStep | bmutility_nn.h:299 | filling one more position updates the map at that name only |
| BmNN.IndexMapOverwrites | bmutility_nn.h:287-309 | refilling a map whose keys are names of the list gives the same map as filling an empty one |
| BmNN.IndexMapIsLastOccurrence | bmutility_nn.h:294-300 | a repeated name maps to its last position |
| BmNN.IndexMapOfDistinct | bmutility_nn.h:294-308 | with distinct names each name maps back to its own position |
| BmNN.LaunchStatus | bmutility_nn.h:482-522 | 0 iff the launch succeeded and the sync returned BM_SUCCESS, -1 otherwise |
| BmNN.FirstMatchingStage | bmutility_nn.h:344-373 | the first stage whose input matches the shape or batch size, or -1 iff no stage does |
| BmNN.InUse | bmutility_nn.h:318-323 | every output memory of non-zero size is freed, nothing of size 0 is, at most one block per output, and one block per output exactly when no size is 0 |
| BmNN.InUseOnlyOutputs | bmutility_nn.h:318-323 | each freed block is the memory of an output at or after its own position in the list of frees |
| BmNN.InUseSnoc | bmutility_nn.h:319-322 | one more turn of the release loop appends that output's memory iff its size is non-zero |
| BmNN.InUseConcat | bmutility_nn.h:318-323 | the frees follow the table order: releasing two runs of outputs frees the first run's blocks, then the second's |
| BmNN.InUseFreesSharedMemoryTwice | bmutility_nn.h:319-322 | two outputs sharing one non-empty block get it freed twice, since the loop does not look for repeats |
| BmNN.Network.constructor | bmutility_nn.h:332-337 | the tables are built from stage 0 and nothing is freed |
| BmNN.Network.ReleaseIoTensors | bmutility_nn.h:311-326 | appends exactly InUse of the output table to the freed blocks, in table order |
| BmNN.Network.InitIoTensorsByStage | bmutility_nn.h:287-309 | fresh tables: input i has input_dtypes[i] and stage s's shape; output i has output_dtypes[i] and always stage 0's shape; 1N storage and null memory; both maps are refilled with every name; the old outputs' memory is freed |
| BmNN.Network.FillInputs | bmutility_nn.h:294-300 | each input slot holds its dtype and its stage-s shape, and every input name is recorded |
| BmNN.Network.FillOutputs | bmutility_nn.h:302-308 | each output slot holds its dtype and its stage-0 shape, and every output name is recorded |
| BmNN.Network.InputNameToIndex | bmutility_nn.h:409-415 | -1 iff the name is not an input; otherwise a position holding the name |
| BmNN.Network.OutputNameToIndex | bmutility_nn.h:417-423 | -1 iff the name is not an output; otherwise a position holding the name |
| BmNN.LookupAfterInit | bmutility_nn.h:294-300 | after init, distinct input names look up to their own positions |
| BmNN.OutputLookupAfterInit | bmutility_nn.h:302-308 | after init, distinct output names look up to their own positions |
| BmNN.Network.StageIndex | bmutility_nn.h:375-377 | always 0: m_stage_idx is never updated |
| BmNN.Network.InputTensorAt | bmutility_nn.h:433-438 | a view of input `index`, carrying that input's name |
| BmNN.Network.OutputTensorAt | bmutility_nn.h:444-448 | a view of output `index`, carrying that output's name |
| BmNN.Network.InputTensorByName | bmutility_nn.h:425-431 | as written: null iff the output map gives -1 (or an index past the inputs); otherwise the input view at the output's index |
| BmNN.InputTensorByNameMissesInputs | bmutility_nn.h:425-427 | an input name that is not also an output name is looked up as -1, though the input map knows it |
| BmNN.Network.InputTensorByNameFixed | bmutility_nn.h:425-431 | null iff the name is not an input; otherwise the view of that input |
| BmNN.Network.SetStageByInputShape | bmutility_nn.h:344-358 | -1 iff the current input's shape differs from the one asked for, and the tables and the freed blocks are then untouched; otherwise 0, with the tables rebuilt from stage 0 and the old outputs' memory freed |
| BmNN.Network.SetStageByBatchSize | bmutility_nn.h:360-373 | -1 with the tables and the freed blocks untouched when the current input's dims[0] differs from the batch size; otherwise the tables are rebuilt from stage 0 and the old outputs' memory freed |
| BmNN.StageSearchMissesLaterStages | bmutility_nn.h:344-351 | on a network loaded from stage 0, asking for a later stage's shape fails as written while the intended search finds that stage |
| BmNN.Network.SelectStage | bmutility_nn.h:344-373 | -1 iff no stage's input matches, with the tables and the freed blocks untouched; otherwise 0, with the tables rebuilt from the first matching stage and the old outputs' memory freed |
| BmNN.Network.Forward | bmutility_nn.h:450-480 | user memory is announced iff the first output already holds device memory; returns 0 iff launch and sync both succeed, -1 otherwise |
| BmNN.Context.constructor | bmutility_nn.h:601-611 | the context holds the runtime's list of network names |
| BmNN.Context.NetworkName | bmutility_nn.h:613-619 | the name at `index`, or "Invalid index" when index is at or past the count |
| CInt.Div | stream_demuxer.cpp:113 | C division for operands of any sign: the magnitude is the magnitude of a divided by that of b, rounded down, a non-zero quotient is negative exactly when the signs differ; for non-negative operands it is Dafny's `/` |
| Demuxer.OpenOptions | stream_demuxer.cpp:45-56 | for a URL starting with "rtsp://", exactly rtsp_transport=tcp, stimeout=2000000, probesize=400, analyzeduration=100 and then rw_timeout=15000; for any other URL, rw_timeout=15000 alone; rtsp_transport is set iff the URL is rtsp |
| Demuxer.OpenStatus | stream_demuxer.cpp:60-71 | 0 iff open and stream-info both succeed; otherwise the first negative result |
| Demuxer.FrameInterval | stream_demuxer.cpp:109-113 | a rate with a zero numerator or denominator falls back to 25/1, giving 40000 µs |
| Demuxer.FrameIntervalBrackets | stream_demuxer.cpp:113 | for a positive rate the interval is one second times den/num, rounded down |
| Demuxer.PacingDelay | stream_demuxer.cpp:132-137 | a sleep happens iff there was a previous frame and less than the interval has passed, and it lasts until previous + interval |
| Demuxer.EofEventsAsWritten | stream_demuxer.cpp:124-126 | as written, the end-of-file callback dereferences null exactly when no observer was given |
| Demuxer.EofEvents | stream_demuxer.cpp:124-127 | guarded end of file: on_read_eof is recorded iff there is an observer |
| Demuxer.EofEventsAgree | stream_demuxer.cpp:125 | the guarded callback agrees with the source wherever the source does not dereference null |
| Demuxer.ServiceStep | stream_demuxer.cpp:115-144 | one read: a non-EOF error changes nothing; EOF on a repeated file rewinds and stays in Service; any other EOF records on_read_eof (guarded, see Left out) and goes Down; a frame records the PacingDelay sleep when positive, then on_read_frame when there is an observer, and is stamped with the clock read after pacing, with the state unchanged |
| Demuxer.RunService | stream_demuxer.cpp:114-145 | the loop reads only while in Service, uses at least one read when there is one, and ends in Service (all reads used) or Down |
| Demuxer.RunServiceExtends | stream_demuxer.cpp:114-145 | the service loop only appends events |
| Demuxer.RunServiceUnfold | stream_demuxer.cpp:114-145 | one turn of the loop is one step followed by the rest of the loop |
| Demuxer.RepeatedFileNeverStops | stream_demuxer.cpp:118-123 | a file read on repeat never leaves Service and uses every read |
| Demuxer.ServiceStopsOnlyAtEof | stream_demuxer.cpp:116-129 | the loop goes Down only at a non-replayed EOF, which is its last read, and on_read_eof is then the last event when there is an observer |
| Demuxer.PacedFramesAreSpaced | stream_demuxer.cpp:132-138 | after a frame stamped at a non-zero time, the next frame's sleep lasts until at least one interval after that stamp |
| Demuxer.StreamDemuxer.constructor | stream_demuxer.cpp:10-13 | no thread, no observer, no previous frame; the work state, repeat and keep-running flags are left open |
| Demuxer.StreamDemuxer.DoInitialize | stream_demuxer.cpp:43-82 | a non-rtsp URL sets the file flag and nothing clears it; on failure returns the negative code with the state, the frame rate and the events unchanged; on success keeps the input's frame rate, goes to Service and reports on_avformat_opened to an observer |
| Demuxer.StreamDemuxer.DoDown | stream_demuxer.cpp:84-99 | reports on_avformat_closed to an observer; goes back to Initialize on repeat, otherwise clears keep-running |
| Demuxer.StreamDemuxer.DoService | stream_demuxer.cpp:101-155 | the new state, last-frame time and events are exactly those of RunService from the old ones, with the interval of the frame rate the open input reported |
| Demuxer.StreamDemuxer.ReadLoop | stream_demuxer.cpp:114-145 | the read loop at a given interval leaves exactly the state, last-frame time, events and reads used of RunService |
| Demuxer.StreamDemuxer.OnReadFailure | stream_demuxer.cpp:116-130 | the failure path of the loop is one ServiceStep on a failed read |
| Demuxer.StreamDemuxer.HandOnFrame | stream_demuxer.cpp:132-144 | the frame path of the loop is one ServiceStep on a frame |
| Demuxer.InitializeStep | stream_demuxer.cpp:178-182 | the Initialize case: the file flag is set for a non-rtsp URL; a successful open goes to Service and reports on_avformat_opened to an observer; a failed one keeps the state and records the one-second pause; a successful one also records the frame rate the input reports and a failed one keeps the old rate; keep-running and the frame time are kept |
| Demuxer.DownStep | stream_demuxer.cpp:84-99 | the Down case: on_avformat_closed to an observer; Initialize on repeat, otherwise keep-running is cleared in Down; the file flag, frame time and frame rate are kept |
| Demuxer.ServicePass | stream_demuxer.cpp:183-185 | the Service case: do_service over the reads available ends in Service with every read used or in Down, using at least one read when there is one, with keep-running, the file flag and the frame rate kept |
| Demuxer.ServiceAfterOpenUsesItsRate | stream_demuxer.cpp:109-113 | after a successful open the next Service pass is paced at the interval of the frame rate that open reported, whatever an earlier open reported |
| Demuxer.DispatchStep | stream_demuxer.cpp:177-189 | one pass of the switch uses only inputs from the current positions on; a pass that uses no input is do_down, which either goes back to Initialize still running or stops in Down |
| Demuxer.DispatchStepKeeps | stream_demuxer.cpp:177-189 | a pass never clears the file flag, only appends events, and clears keep-running only in Down without repeat |
| Demuxer.RunFrom | stream_demuxer.cpp:176-190 | the loop `while (m_keep_running) switch (m_work_state)` from given positions in the open results and reads never moves past their ends |
| Demuxer.RunDispatch | stream_demuxer.cpp:175-191 | the reader thread's whole loop uses at most the open results and reads given |
| Demuxer.DispatchExtends | stream_demuxer.cpp:176-190 | the loop never clears the file flag and only appends events |
| Demuxer.DispatchStops | stream_demuxer.cpp:176-190 | a stopped reader does nothing; the loop stops running only through do_down without repeat, in Down; a reader still running has used up the input of its state (the open results in Initialize, the reads in Service) |
| Demuxer.FailedOpenRetries | stream_demuxer.cpp:178-182 | a failed open in Initialize records the pause, stays in Initialize and runs on from the next open result |
| Demuxer.FailingOpensRetryForever | stream_demuxer.cpp:178-182 | while every open fails the reader stays in Initialize and running, uses every open result and no read, and records exactly one pause per attempt |
| Demuxer.StreamDemuxer.DispatchOnce | stream_demuxer.cpp:177-189 | one pass of the switch over the fields leaves exactly the fields and positions of DispatchStep |
| Demuxer.StreamDemuxer.RunReader | stream_demuxer.cpp:175-191 | the fields and inputs used are exactly those of RunDispatch from the old fields; a stopped reader changes nothing; it stops running only in Down without repeat, and otherwise only when its state's input is used up |
| Demuxer.StreamDemuxer.OpenStream | stream_demuxer.cpp:157-194 | stores URL, observer and repeat; a synchronous open returns exactly do_initialize's status, and a failing one returns its negative error in Initialize with no event, before keep-running is set or a thread started; otherwise returns 0 running, in Service with on_avformat_opened to an observer if opened synchronously, else in Initialize with no event; the file flag is set only by a synchronous open of a non-rtsp URL; the frame rate changes only on a successful synchronous open |
| Demuxer.StreamDemuxer.CloseStream | stream_demuxer.cpp:196-209 | not waiting forces Down and clears repeat, waiting changes neither; the reader is gone afterwards and 0 is returned |
| BmImage.RequiredSlots | bmutility_image.h:27-62 | slots 4 and 5 are always checked, slots 6 and 7 exactly for a compressed frame, and no slot outside 4..7 |
| BmImage.FromAvFrame | bmutility_image.h:18-88 | BM_NOT_SUPPORTED iff the format is not NV12; BM_ERR_PARAM iff NV12 with a zero geometry or a zero line size or null pointer in a required slot; BM_SUCCESS otherwise. The compressed planes are (data[6], h*ls[4]), (data[4], (h/2)*ls[5]), (data[7], ls[6]), (data[5], ls[7]) on a local image and `out` is untouched; the uncompressed image has strides [ls[4], ls[5]] and planes (data[4], h*ls[4]), (data[5], h*ls[5]) on `out` |
| BmImage.UncompressedIgnoresUpperSlots | bmutility_image.h:57-62 | for an uncompressed frame, slots 6 and 7 do not affect the result |
| BmImage.CompressedNeedsAllFourSlots | bmutility_image.h:27-34 | a compressed frame with a zero line size or null pointer in any of slots 4..7 is refused with BM_ERR_PARAM |
| BmImage.UncompressedPlanesFollowStrides | bmutility_image.h:64-81 | each uncompressed plane k lies at data[4+k] and holds height rows of stride k |

## Left out

- Threads. The reader is a `std::thread` started by open_stream and joined by close_stream. Here it is the method `RunReader`, run over finite scripts of open results and reads. Concurrent writes to the shared fields from the caller and the reader are not modelled.
- Real I/O. The runtime, device and ffmpeg calls are not modelled: avformat open/read/seek/close, av_gettime, av_usleep, bm_malloc_device_byte, bmrt_launch_tensor_ex, bm_thread_sync, bm_image_create/attach. Their results and the clock readings are parameters; their effects are recorded as events or returned values.
- Runtime writes to the output tensors during `forward`, and the device allocation in the reshape helpers. Only the dim layout of the reshapes is modelled.
- `get_cpu_data`, the scale and `m_can_mmap`. They cover mapping or copying device memory and int8-to-float conversion, which is floating-point work on buffers outside the model.
- The destructors of BMNNTensor, BMNNNetwork, BMNNContext and StreamDemuxer. BMNNNetwork's destructor only releases the tables, which `ReleaseIoTensors` models.
- Integer width. C `int` products and shifts are taken as mathematical integers, without 32-bit wrap-around. This covers the element count, the byte size `<< 2`, `height * linesize`, and `1000000 * den` in the pacing interval.
- The other files of the library are not part of this model: `bmutility.h`, `bmutility_pipeline.h`, `bmutility_timer.h` and `ffmpeg_global.h`. They hold an older copy of the runtime wrappers, thread and queue wiring, wall-clock timers and library registration.
- Demuxer.StreamDemuxer.constructor: leaves m_work_state, m_repeat and m_keep_running open, because the C++ constructor does not initialise them.
- BmNN.Network.SetStageByBatchSize: the value returned on success is left unspecified. The source flows off the end of a non-void function there, which is undefined behaviour. `SelectStage` returns 0.
- BmNN.Network.InputTensorByName: an output index at or past the number of inputs is modelled as a null result. The source would index `input_names` and the input table out of bounds.
- BmNN.Network.Forward: requires at least one output. The source reads the first output unconditionally.
- Demuxer.StreamDemuxer.CloseStream: the join only clears the thread flag. Waiting for the reader to finish is not modelled.
- Demuxer.StreamDemuxer.OpenStream: the reader started on success is not run here. `RunReader` models its loop.
- Demuxer.StreamDemuxer.DoInitialize: the option list is not handed to anything, since avformat_open_input is not modelled; `OpenOptions` states the list.
- Demuxer.ServiceStep: calls on_read_eof only when there is an observer, as `EofEvents` does; where the source dereferences a null observer at end of file (stream_demuxer.cpp:125) the model goes Down without an event. `RunService`, `ServicePass` and `DoService` inherit this. `EofEventsAsWritten` states the unguarded call.
- BmNN.Context.NetworkName: takes a `nat` index. The source's `int` index passes the bound test at bmutility_nn.h:614 when negative and then reads out of bounds at line 618; negative indices are not modelled.
- BmNN.NNTensor: a view holds the table array it was taken from. In the source a view taken before a stage rebuild points into the deleted arrays (bmutility_nn.h:314, 324); in the model it keeps reading the old array, so the dangling pointer is not modelled.
- BmNN.LaunchStatus: models the two forward overloads with explicit tensors. Their fixed user-memory and sync flags are arguments passed to the runtime and are not modelled.

## Findings

| source | as written | input that shows it | evidently intended | confidence | as-written member | corrected member |
|---|---|---|---|---|---|---|
| bmutility_nn.h:425-431 | inputTensor(name) finds the index with outputName2Index and then uses it on the input names and tensors | a network with one input "data" and one output "out": inputTensor("data") returns null | look the name up with inputName2Index | high; not executed | BmNN.Network.InputTensorByName, BmNN.InputTensorByNameMissesInputs | BmNN.Network.InputTensorByNameFixed |
| stream_demuxer.cpp:125 | on_read_eof is called through m_observer with no null test, unlike every other callback | open_stream on a file with a null observer and repeat off: the first end of file dereferences null | guard the call with `if (m_observer)` as on lines 74, 88 and 140 | high; not executed | Demuxer.EofEventsAsWritten, Demuxer.EofEventsAgree | Demuxer.EofEvents |
| bmutility_nn.h:346-351 | the stage search compares the current input tensor's shape (or dims[0]) on every pass, never stage i's, so it can only pick stage 0 | a two-stage network loaded at stage 0, asked for stage 1's distinct input shape: returns -1 | compare stages[i].input_shapes[index], load the first match and return 0 | high; not executed | BmNN.Network.SetStageByInputShape, BmNN.StageSearchMissesLaterStages | BmNN.Network.SelectStage |
