# Kneron host SDK inference core, modelled in Dafny

This project models the part of the Kneron host library that runs inference
and decodes its results:

- **Device group** (`Devices`). The round-robin send and receive cursors of a
  device group. The validation and framing of the generic image and data
  sends. The header checks and cursor updates of the generic receives, the
  customized send and receive, and the header checks of the checkpoint
  receive.
- **Lookups** (`Lookups`, `ModelReaderUtils`). The small lookups the decoders
  use:
  - result header stamp verification;
  - channel-ordering conversion codes;
  - fixed-point element types;
  - image sizes;
  - `round_up`;
  - data-type sizes;
  - the mapping of a firmware data format to a tensor layout;
  - the check that a tensor descriptor is complete.
- **Quantization** (`FixedPoint`). Reading one quantization descriptor, and
  the per-element factor selection of the float decoder (channel-wise or per
  tensor). Filling a descriptor list from the typed radix and scale vectors
  of a V2 result.
- **Node decoders**:
  - `RawNode`: extracting a raw fixed-point node from a KL520, KL720, KL630
    or KL730/KL830 result.
  - `LegacyDecode`: the V1 three-level conversion loops (HCW/CHW to
    CHW/HCW/HWC, with 8- and 16-element row padding, and the 1W16C8B
    channel-group layout).
  - `NdWalk`: the V2 N-dimensional walk from NPU strides to ONNX row-major
    order, with the channel-group correction and the high/low byte layouts.
  - `Retrieve`: the fixed-point and float node decoders built on them.
- **KNE reader** (`KneReader`). Building the library's model descriptors from
  a parsed KNE model container, and looking up a model's output buffer size.
- **JNI port identifier** (`PortText`, `PortBits`, `PortPath`).
  `generate_port_id_from_path`: the path is split as `strtok` splits it, each
  token is read as `atoi` reads it, and the numbers are packed into a 32-bit
  identifier.

Imperative code is modelled as methods with loops:

- the model-table loops;
- the frame loop of a send;
- the KL520 offset loop;
- the descriptor fill;
- the V1 loop nests;
- the V2 walk and its carry loop;
- the KNE descriptor, stride, tensor-list and buffer-size loops;
- the port-identifier loop.

Each method is proved against a specification function. The lemmas beside
those functions state what the library promises. The device group is a class
whose two cursor fields are updated by the send and receive methods.
Everything else is modelled on values.

Several things are abstracted:

- **USB transfers** are parameters. A send receives the outcome of each write
  as a function of the write's position. A receive receives the read's return
  value together with the decoded frame it delivered.
- **Floating-point values are not computed.**
  - A float element is kept as its fixed-point value.
  - Its factor is kept as the quantization descriptor (radix and scale) the
    factor is computed from.
- **Result buffers** are decoded header records plus byte sequences.
  - NPU element values are read from the bytes: int8; little-endian int16
    with its low bit cleared; high/low byte pairs.
  - Offsets that the source computes in `uint32` are wrapped explicitly.
- **Constants defined outside the modelled files** are fields of
  `Devices.GroupConfig`. These are `KP_MAX_INPUT_NODE_COUNT` and the `sizeof`
  of the frame headers.

## Model

| member | source | states |
|---|---|---|
| Lookups.VerifyResultHeaderStamp | src/kp_inference.c:125-146 | success exactly for an INFERENCE or INFERENCE_V2 stamp with status 0 whose size and job id match when checked; a foreign magic is INCORRECT_HEADER_STAMP, a device status is returned as is, then a job-id mismatch (RECEIVE_JOB_ID_MISMATCH) is reported before a size mismatch (RECEIVE_SIZE_MISMATCH), each pinned to its case |
| Lookups.ChannelOrderingConvertCode | src/kp_inference.c:148-193 | KL520 (HCW data) asked for CHW or HWC gets HCW2CHW / HCW2HWC; the channel-first products asked for HCW or HWC get CHW2HCW / CHW2HWC; every other pair gets no conversion (both directions of each case) |
| Lookups.FixedPointDTypeOf | src/kp_inference.c:195-217 | int8 exactly for the 8-bit layouts, int16 exactly for the 16-bit word and high/low layouts, unknown for unknown and raw-float layouts |
| Lookups.ImageSizeBytes | src/kp_inference.c:60-90 | the size is known exactly for the supported pixel formats, is width*height times the format's bytes per pixel (1.5 for YUV420), and an unsupported format is INVALID_PARAM |
| Lookups.RoundUpIsLeastMultiple | src/kp_inference.c:695-698 | without 32-bit overflow, round_up gives the least multiple of the step at or above the number; with overflow the wrapped sum truncates to 0 |
| Lookups.DataTypeSize | src/kp_inference.c:700-745 | 1, 2, 4 or 8 bytes by type class, and 0 exactly for types it does not know |
| ModelReaderUtils.ConvertDataFormat | src/model_reader_utils.c:53-203 | a format maps to a known layout exactly when it is named and supported on the target chip, and then to the layout of the same name |
| ModelReaderUtils.ChipSpecificLayouts | src/model_reader_utils.c:53-203 | KL520 yields only its two 8-bit layouts, the channel-compact layouts exist only on KL730, KL720 has no 4W4C8BHL/16W1C8BHL, and chips outside the table map everything to unknown |
| ModelReaderUtils.HlVariantsMapped | src/model_reader_utils.c:53-203 | on the chips with high/low layouts each HL format name maps to its own HL layout |
| ModelReaderUtils.IsTensorInfoReallocated | src/model_reader_utils.c:11-51 | returns success or MEMORY_ALLOCATION_FAILURE, success exactly when the name, the shape arrays of the descriptor's version and the quantization descriptors are present |
| ModelReaderUtils.PopulatedPassesCheck | src/model_reader_utils.c:11-51 | a fully populated descriptor passes the check, one without a name fails it |
| FixedPoint.DescriptorInformation | src/kp_inference.c:228-275 | an index at or beyond the count is INVALID_PARAM, a scale type it cannot convert is INVALID_MODEL, otherwise the descriptor at that index (both directions) |
| FixedPoint.FactorStep | src/kp_inference.c:277-336 | one call moves the descriptor index by at most one and fails only with INVALID_PARAM or INVALID_MODEL |
| FixedPoint.ChannelWiseSelection | src/kp_inference.c:277-336 | channel-wise, the element at offset t gets descriptor t / stride and the walk succeeds exactly when every descriptor up to that one is readable |
| FixedPoint.ChannelWiseFactor | src/kp_inference.c:277-336 | a channel-wise walk that reaches offset t uses descriptor t / stride, which exists |
| FixedPoint.PerTensorSelection | src/kp_inference.c:277-336 | per tensor, every element gets descriptor 0, and the walk succeeds exactly when descriptor 0 is readable |
| FixedPoint.FillDescriptors | src/kp_inference.c:747-819 | an empty list succeeds; a non-empty list fails with INVALID_MODEL exactly on an unknown scale type or a radix type other than int8/16/32; otherwise entry i holds the i-th radix and i-th scale |
| FixedPoint.FillMeetsSpec | src/kp_inference.c:747-819 | the fill's outcome is the descriptor list the value-level fill describes |
| RawNode.EmptyTableAcceptsEveryIndex | src/kp_inference.c:857 | with zero nodes the written check accepts every 32-bit index although none names a node |
| RawNode.NegativeCountAcceptsIndices | src/kp_inference.c:928-932 | a negative signed node count (KL720, KL630) makes the written check accept non-existent indices |
| RawNode.NodeIndexChecksAgree | src/kp_inference.c:991-995 | for a non-empty table the written check and `node_idx < total` agree on every 32-bit index |
| RawNode.Kl520DataOffset | src/kp_inference.c:870-873 | the offset loop gives 4 + count*metadata size + the bytes of the preceding nodes, in uint32 |
| RawNode.Kl520OffsetStep | src/kp_inference.c:870-873 | one turn of the offset loop adds the node's bytes to the offset, in uint32 |
| RawNode.Kl520NodesContiguous | src/kp_inference.c:870-876 | without overflow the first node follows the metadata table and each node's data directly follows the previous one |
| RawNode.RetrieveRawFixedNode | src/kp_inference.c:821-1152 | the method returns the node the value-level extraction describes (with the node-index check corrected) |
| RawNode.RawNodeAcceptance | src/kp_inference.c:821-1152 | a node is returned exactly for a supported magic type and product, an index naming one of its nodes, and (V2) supported shape types and a fillable descriptor list |
| RawNode.RawNodeDescriptorComplete | src/kp_inference.c:880-923 | every returned node passes the reallocation check; V1 nodes have equal NPU/ONNX shapes, the identity permutation and one FLOAT32 descriptor; V2 nodes have shape_len axes and quantized_parameters_len descriptors |
| RawNode.Kl520NodeLayout | src/kp_inference.c:853-923 | a KL520 node has its position as index, height*channel*round_up(width,16) elements and data after the nodes before it |
| LegacyDecode.Gather | src/kp_inference.c:1294-1352 | a conversion loop nest outputs, in loop order, the NPU element its plan selects for each loop position |
| LegacyDecode.VisitsAt | src/kp_inference.c:1294-1352 | a nest visits nx*ny*nz positions and the visit at the row-major position of (x, y, z) is (x, y, z) |
| LegacyDecode.LegacyNest | src/kp_inference.c:1289-1477 | the branch of a V1 node by layout and code; it fails exactly for 1W16C8B asked to convert from HCW |
| LegacyDecode.LegacyNestStrided | src/kp_inference.c:1289-1292 | every layout but 1W16C8B takes a strided branch over rows padded to 8 (8W1C16B) or 16 elements; for a width from 0 to 2^31 - 16 the padded width is at least the width and less than 16 above it |
| LegacyDecode.TripsProduct | src/kp_inference.c:1294-1352 | three nested `for` loops with `int` bounds run their body the product of the bounds times when every bound is positive, and never otherwise |
| LegacyDecode.LegacyNestCount | src/kp_inference.c:1289-1477 | a branch whose `int` loop bounds are positive (the plain copies test height*channel or height*width) writes channel*height*width elements, and one with a bound at or below 0 writes none |
| LegacyDecode.PaddedWidthFacts | src/kp_inference.c:1289-1292 | `width_aligned` (via `round_up`, lines 695-698) is the least multiple of 8 or 16 at or above a width up to 2^31 - k, and -2^31 for a larger positive width, once the uint32 result is stored in the `int` |
| LegacyDecode.LegacyElement | src/kp_inference.c:1283-1477 | an element is a signed byte, or for 8W1C16B a signed little-endian 16-bit word |
| LegacyDecode.HcwToChw | src/kp_inference.c:1296-1307 | HCW2CHW puts element (h, c, w) of the padded HCW data at CHW position (c, h, w) |
| LegacyDecode.ChwToHcw | src/kp_inference.c:1308-1319 | CHW2HCW puts element (c, h, w) of the padded CHW data at HCW position (h, c, w) |
| LegacyDecode.HcwToHwc | src/kp_inference.c:1320-1331 | HCW2HWC puts element (h, c, w) of the padded HCW data at HWC position (h, w, c) |
| LegacyDecode.ChwToHwc | src/kp_inference.c:1332-1343 | CHW2HWC puts element (c, h, w) of the padded CHW data at HWC position (h, w, c) |
| LegacyDecode.PlainCopy | src/kp_inference.c:1344-1351 | without conversion the rows are copied in NPU order with the padding dropped |
| LegacyDecode.BlockToHcw | src/kp_inference.c:1368-1382 | 1W16C8B, CHW2HCW: channel c at spatial position h*W+w is read from its 16-channel group into HCW position (h, c, w) |
| LegacyDecode.BlockToHwc | src/kp_inference.c:1383-1397 | 1W16C8B, CHW2HWC: the same element goes to HWC position (h, w, c) |
| LegacyDecode.BlockToChw | src/kp_inference.c:1398-1411 | 1W16C8B, no conversion: the element goes to c*(H*W) + p |
| NdWalk.Carry | src/kp_inference.c:1525-1536 | the carry loop advances the multi-index by one row-major step in place |
| NdWalk.FlattenInc | src/kp_inference.c:1525-1536 | a step adds one to the row-major offset and keeps every axis but the first inside its extent |
| NdWalk.IdxAtFlatten | src/kp_inference.c:1525-1541 | after t steps the counter is a valid multi-index whose row-major offset is t |
| NdWalk.FlattenBound | src/kp_inference.c:1537-1541 | a multi-index's offset is below the volume exactly when its first axis is inside its extent, the walk's end test |
| NdWalk.CounterInBox | src/kp_inference.c:1525-1541 | before Volume steps the counter is inside the box at offset t; the step reaching Volume is the first to put the first axis at its extent, which ends the walk |
| NdWalk.EveryIndexVisited | src/kp_inference.c:1499-1541 | every multi-index of the box is visited, at the step its row-major offset names |
| NdWalk.FlattenInjective | src/kp_inference.c:1499-1541 | two multi-indices of the box with the same offset are equal, so no output position is written twice |
| NdWalk.NpuBaseOffset | src/kp_inference.c:1500-1503 | the stride loop gives the dot product of index and NPU strides in uint32 |
| NdWalk.ScanChannelGroup | src/kp_inference.c:1505-1516 | the channel-group loop gives the last unit-stride axis and the running maximum of stride*extent over the other axes |
| NdWalk.GroupScanIsMax | src/kp_inference.c:1505-1516 | the group-stride scan is the larger of its start value and the largest non-unit stride*extent |
| NdWalk.GroupStrideStable | src/kp_inference.c:1505-1520 | although never reset, the group stride used for every element is the largest non-unit stride*extent minus 16 |
| NdWalk.ChannelGroupOffset | src/kp_inference.c:1505-1521 | for 1W16C8B(HL) the offset is the strided offset plus (channel index / 16) * (that maximum - 16), in uint32 |
| NdWalk.ElementOffset | src/kp_inference.c:1499-1521 | one element's offset computation gives the walk's t-th NPU offset and carries the channel axis and group stride to the next element |
| NdWalk.HighLowPlanes | src/kp_inference.c:2097-2160 | for HL layouts the low byte of element o is byte o%16 of 32-byte block o/16 and its high byte sits 16 bytes later in the same block |
| NdWalk.ElementValue | src/kp_inference.c:1492-1636 | an element is an int8 for 8-bit layouts, an even int16 for 16-bit word and HL layouts |
| NdWalk.WalkPlacesEveryIndex | src/kp_inference.c:1492-1572 | without the channel-group term, the output at the row-major offset of a multi-index is read at its strided NPU offset |
| NdWalk.WalkStep | src/kp_inference.c:1499-1541 | one loop pass reads the t-th element, advances the counter, and reports the end exactly after the last element |
| NdWalk.WalkNode | src/kp_inference.c:1478-1636 | the V2 loop writes Volume(shape) elements, the t-th being the element at the t-th NPU offset |
| Retrieve.NumData | src/kp_inference.c:1233-1248 | num_data is the product of the ONNX extents in uint32 |
| Retrieve.DecodedData | src/kp_inference.c:1236-1636 | V1 data converts exactly when the layout/code pair is convertible and gives channel*height*width elements when its loops run and none otherwise; V2 data converts exactly for the default ordering over a walk layout and gives the walk's elements |
| Retrieve.DecodeNode | src/kp_inference.c:1283-1636 | the decoding method's result is the value-level decoding |
| Retrieve.DecodeFixedNode | src/kp_inference.c:1233-1636 | the decoding of a raw node into a fixed node is the value-level decoding |
| Retrieve.RetrieveFixedNode | src/kp_inference.c:1156-1651 | the method returns the fixed node the value-level decoder describes |
| Retrieve.FixedNodeAcceptance | src/kp_inference.c:1156-1651 | a fixed node is returned exactly when the magic is an inference type, the raw node is returned and the conversion is possible |
| Retrieve.FixedNodeContents | src/kp_inference.c:1233-1272 | a fixed node reports the uint32 product of its ONNX shape, the element type of its layout, the shape, name and quantization of its descriptor, and its converted data: for V1 as many elements as its loops write |
| Retrieve.IdleLegacyNode | src/kp_inference.c:1283-1477 | a V1 node with a loop bound at or below 0 reads no data and, when its conversion is possible, is returned with no element |
| Retrieve.IdleRawNodeReadable | src/kp_inference.c:1156-1300 | such an extracted V1 node can be passed to the fixed and float retrieval, whatever its extents |
| Retrieve.LegacyChwOrder | src/kp_inference.c:1413-1432 | a V1 node with 16-element rows converted HCW2CHW holds NPU element (h, c, w) at CHW position (c, h, w) |
| Retrieve.Kl520ChwOrder | src/kp_inference.c:853-923 | end to end on KL520 asked for CHW, the fixed node holds NPU element (h, c, w) at CHW position (c, h, w) |
| Retrieve.V2RejectsReordering | src/kp_inference.c:1478-1482 | a V2 node asked for HCW or HWC is not decoded |
| Retrieve.Kl520Layouts | src/model_reader_utils.c:53-203 | KL520 nodes carry only the 4W4C8B and 16W1C8B layouts (or unknown) |
| Retrieve.QuantizedAxisStride | src/kp_inference.c:1976-1985 | the stride loop gives the product of the extents of every axis but the quantized one |
| Retrieve.OtherExtentsVolume | src/kp_inference.c:1976-1985 | that product times the quantized extent is the volume |
| Retrieve.SelectFactors | src/kp_inference.c:2026-2030 | the descriptor cursor succeeds exactly when the steps through the last offset do, and then yields the factor each step reaches |
| Retrieve.FactorsFailAfter | src/kp_inference.c:2026-2030 | once a factor step fails, every later step fails, so the decoder's early return loses nothing |
| Retrieve.WalkFactors | src/kp_inference.c:1969-2169 | the V2 pairing of elements with factors is the value-level pairing |
| Retrieve.RetrieveFloatNode | src/kp_inference.c:1653-2184 | the method returns the float node the value-level decoder describes |
| Retrieve.DecodeFloatNode | src/kp_inference.c:1729-2169 | the decoding of a raw node into a float node is the value-level decoding |
| Retrieve.FloatNodeAcceptance | src/kp_inference.c:1653-2184 | a float node is returned exactly when the fixed data converts and its factors can be read: descriptor 0 for V1 and per tensor, every descriptor up to the last offset's channel-wise |
| Retrieve.FloatNodeElements | src/kp_inference.c:1729-1753 | a float node keeps the fixed node's count, shape and name and pairs every fixed element, in order, with a factor |
| Retrieve.FloatLegacyFactor | src/kp_inference.c:1765-1779 | every V1 element uses the factor of descriptor 0 |
| Retrieve.FloatWalkAt | src/kp_inference.c:1969-2169 | the factor paired with V2 offset t is the one the descriptor steps reach at t |
| Retrieve.FloatChannelWise | src/kp_inference.c:1976-2030 | with more than one descriptor, the element at ONNX offset t uses descriptor t / S, S the product of the other extents |
| Retrieve.FloatPerTensor | src/kp_inference.c:2026-2030 | with at most one descriptor every V2 element uses descriptor 0, which must exist |
| Retrieve.IntendedChannel | src/kp_inference.c:1976-1983 | the descriptor index the quantized axis calls for is below that axis's extent |
| Retrieve.IntendedChannelIsCoordinate | src/kp_inference.c:1976-1983 | that index, computed from the row-major offset of any multi-index in the shape, is the multi-index's coordinate on the quantized axis |
| Retrieve.ChannelSelectionsAgree | src/kp_inference.c:1976-1983 | when every axis before the quantized one has extent 1, t / S is that coordinate |
| Retrieve.ChannelSelectionMismatch | src/kp_inference.c:1976-1983 | for shape [2, 2] quantized on axis 1, S is 2 and, since a new descriptor is read at every multiple of S (line 292), element (0, 1) at offset 1 gets descriptor 0 instead of 1 |
| Retrieve.FloatChannelWiseOverrun | src/kp_inference.c:1976-2030 | when the volume exceeds count * S the descriptors run out and the float node is lost |
| KneReader.KneDataTypeSize | src/kne_reader.c:23-75 | a missing output is INVALID_PARAM, an unknown code INVALID_MODEL, otherwise the code's width |
| KneReader.KneDataTypeKind | src/kne_reader.c:77-129 | the same failures (exactly the unknown codes fail); each signed code maps to the signed kp_dtype of its width, each unsigned code to the unsigned one, float to FLOAT32, bfloat16 to BFLOAT16 and double to DOUBLE64 |
| KneReader.DataTypeMappingsAgree | src/kne_reader.c:23-129 | both mappings accept the same codes, and the container width is the library width of the mapped type |
| KneReader.QuantizationBroadcast | src/kne_reader.c:184-231 | every descriptor has the radix at its own position unless there is one radix; its scale type is the mapped scale type, and its scale is the value at byte i*width when scale_count > 1, at byte 0 otherwise |
| KneReader.ConstructQuantization | src/kne_reader.c:131-235 | a missing table is INVALID_PARAM, an unknown scale type INVALID_MODEL, otherwise a version-1 set of max(scale_count, radix length) descriptors with those radices and scales |
| KneReader.FillQuantizationDescriptors | src/kne_reader.c:184-231 | the descriptor loop yields max(scale_count, radix length) descriptors, descriptor i taking radix i (or the only radix) and the scale at its byte offset |
| KneReader.QuantizationSpecOf | src/kne_reader.c:184-231 | a list holding descriptors 0..n-1 of the container is exactly the parameter set built |
| KneReader.OnnxStridesRecurrence | src/kne_reader.c:297-303 | the last ONNX stride is 1 and each earlier one is the next times the next extent (uint32) |
| KneReader.SynthesizeOnnxStrides | src/kne_reader.c:297-303 | the stride loops give the row-major strides of the shape |
| KneReader.TensorSpecFacts | src/kne_reader.c:237-307 | a built tensor descriptor passes the reallocation check, has its position as index, shape version 2 with the container's shape, and the quantized axis of the container |
| KneReader.ConstructTensor | src/kne_reader.c:237-307 | the method returns the descriptor the value-level construction describes |
| KneReader.TensorListContents | src/kne_reader.c:340-350 | a successful list has one descriptor per tensor, in order, each indexed by its position |
| KneReader.TensorListFirstFailure | src/kne_reader.c:340-350 | the list fails exactly when some tensor fails, with the first failing tensor's status |
| KneReader.CollectContents | src/kne_reader.c:340-350 | a successful collection holds every result from the start position on, in order |
| KneReader.CollectFailureIsFirst | src/kne_reader.c:340-350 | a failing collection carries the status of a failing result before which every result succeeded |
| KneReader.CollectFailsAt | src/kne_reader.c:340-350 | one failing result makes the whole collection fail |
| KneReader.ConstructTensorList | src/kne_reader.c:340-350 | the list loop's outcome is the value-level list |
| KneReader.ConstructInputTensors | src/kne_reader.c:309-354 | the input list of a model header, failing INVALID_PARAM/INVALID_MODEL on a missing header or vector |
| KneReader.ConstructOutputTensors | src/kne_reader.c:356-401 | the output list of a model header, with the same failures |
| KneReader.SchemaSpec | src/kne_reader.c:403-428 | a missing header is INVALID_PARAM, a missing schema INVALID_MODEL, otherwise the schema's version numbers |
| KneReader.ConstructSingleModel | src/kne_reader.c:430-465 | a missing model is INVALID_PARAM, a missing header INVALID_MODEL, then schema, inputs and outputs are built in order and the first failure is returned |
| KneReader.KneHeaderOf | src/kne_reader.c:471-486 | the header's target is returned exactly when the table and its header exist; a NULL table is INVALID_PARAM, a missing header INVALID_MODEL |
| KneReader.KneModelsOf | src/kne_reader.c:488-502 | the table's model vector is returned exactly when the table and its models exist; a NULL table is INVALID_PARAM, a missing vector INVALID_MODEL |
| KneReader.ReadKne | src/kne_reader.c:508-524 | every failure is INVALID_MODEL; success exactly with a root, header and models, returning the target and the model vector |
| KneReader.BufferScanFound | src/kne_reader.c:545-575 | a buffer size comes from the first OUTPUT_BUFFER entry with every earlier entry present; no such entry gives nothing, a missing entry INVALID_MODEL |
| KneReader.BufferScanReached | src/kne_reader.c:545-575 | a scan reaching the first OUTPUT_BUFFER entry, every earlier entry present, returns that entry's length |
| KneReader.OutputBufferSizeFound | src/kne_reader.c:526-585 | a size is returned only from the first OUTPUT_BUFFER entry of a model with the requested id, every earlier model having been passed over |
| KneReader.OutputBufferSizeReached | src/kne_reader.c:526-585 | conversely, when every earlier model is passed over and model m has the id and a first OUTPUT_BUFFER entry, that entry's length is returned |
| KneReader.ModelScanFailures | src/kne_reader.c:526-585 | the scan fails only with INVALID_MODEL (a missing model, header, buffer list or entry) or MODEL_NOT_LOADED |
| KneReader.OutputBufferSizeNotLoaded | src/kne_reader.c:526-585 | MODEL_NOT_LOADED is returned exactly when every model is passed over |
| KneReader.GetOutputBufferSize | src/kne_reader.c:526-585 | the nested loops return the value-level scan's result |
| KneReader.ConstructModelsInfo | src/kne_reader.c:587-625 | one descriptor per container model with the given target; any single-model failure is reported as INVALID_PARAM |
| Devices.NextCursorWraps | src/kp_inference.c:366-369 | the cursor step is (cur + 1) mod num_device and stays below it |
| Devices.DeviceGroup.AdvanceSend | src/kp_inference.c:366-369 | the send uses the current device and moves cur_send on, wrapping, and leaves cur_recv alone |
| Devices.DeviceGroup.AdvanceRecv | src/kp_inference.c:2234-2237 | the receive uses the current device and moves cur_recv on, wrapping, and leaves cur_send alone |
| Devices.DeviceGroup.FindModel | src/kp_inference.c:92-123 | the loops find a model exactly when one has the id (and, for the input check, that input-node count) |
| Devices.DeviceGroup.SendFrames | src/kp_inference.c:400-433 | the frame loop's result is the value-level frame sequence |
| Devices.DeviceGroup.GenericSend | src/kp_inference.c:362-436 | the send moves cur_send on before any check and returns the value-level send on the old cursor's device |
| Devices.DeviceGroup.ImageInferenceSend | src/kp_inference.c:362-436 | kp_generic_image_inference_send is the generic send over image nodes |
| Devices.DeviceGroup.DataInferenceSend | src/kp_inference.c:537-605 | kp_generic_data_inference_send is the generic send over data nodes |
| Devices.SendValidation | src/kp_inference.c:376-393 | too many nodes is 48, a model/input-count mismatch 12, too few input buffers 42, each with nothing written; anything written means every check passed |
| Devices.ModelNotLoadedUnreachable | src/kp_inference.c:389-398 | MODEL_NOT_LOADED is never returned: a model matching the input-node count has the id |
| Devices.SendFraming | src/kp_inference.c:400-433 | write k goes to the chosen device and is the header of node k/2 (INFERENCE magic, uint32 total size, total_image n, image_index k/2) when k is even and its payload otherwise |
| Devices.SendOutcome | src/kp_inference.c:400-435 | a success writes 2n frames; SEND_DATA_TOO_LARGE names the first frame that does not fit, earlier frames all fitting and written whole |
| Devices.FramesTooLarge | src/kp_inference.c:412-417 | a too-large status comes after whole frames only, and names a frame whose total size exceeds the input buffer |
| Devices.FramesFit | src/kp_inference.c:412-417 | every frame written whole fits the input buffer |
| Devices.FramesLayout | src/kp_inference.c:400-433 | the frames are written in order, header then payload per node, to the chosen device |
| Devices.FramesLength | src/kp_inference.c:400-435 | at most two writes per remaining node, exactly that many on success |
| Devices.FramesCount | src/kp_inference.c:400-435 | the frame writes from node i are at most two per remaining node, all of them on success; a too-large status names the first frame exceeding the buffer, every earlier one fitting |
| Devices.FramesNeverModelNotLoaded | src/kp_inference.c:400-433 | the frame loop returns only payload-size, buffer-size and USB statuses |
| Devices.DeviceGroup.GenericReceive | src/kp_inference.c:438-535 | the receive's status, header and new cur_recv are those of the value-level receive, cur_send unchanged |
| Devices.DeviceGroup.ImageInferenceReceive | src/kp_inference.c:438-535 | kp_generic_image_inference_receive is the generic receive with the RAW job id and pre-processing records |
| Devices.DeviceGroup.DataInferenceReceive | src/kp_inference.c:607-690 | kp_generic_data_inference_receive is the generic receive with the bypass job id and no records |
| Devices.ReceiveCursor | src/kp_inference.c:495-532 | cur_recv stays below num_device; a failed receive leaves it and the header alone; a successful one advances it modulo num_device exactly on the last crop |
| Devices.ReceiveAccepted | src/kp_inference.c:446-528 | success exactly on a non-negative read with an inference stamp of status 0 and the call's job id (and for V2 images at most KP_MAX_INPUT_NODE_COUNT records); then the header carries the frame's numbers and its first num_of_pre_proc_info records |
| Devices.DeviceGroup.CustomizedSend | src/kp_inference.c:2186-2228 | cur_send moves on before the checks and the result is the value-level customized send |
| Devices.CustomSendFraming | src/kp_inference.c:2197-2227 | only a validated header is written (image_index < total_image <= KP_MAX_INPUT_NODE_COUNT, INFERENCE magic, uint32 total size within the buffer); the image follows only when present and after the header went through |
| Devices.DeviceGroup.CustomizedReceive | src/kp_inference.c:2230-2252 | cur_recv moves on whatever is read, and the result is the value-level receive |
| Devices.CustomReceiveAccepted | src/kp_inference.c:2239-2251 | success exactly on a non-negative read with an inference stamp of status 0, whatever its job id; the received size is reported |
| Devices.DeviceGroup.ReceiveCheckpoint | src/kp_inference.c:2350-2378 | cur_recv moves on whatever is read, and the status is that of the header checks |
| Devices.CheckpointStatus | src/kp_inference.c:2367-2378 | a read error is returned; then any other magic is INVALID_CHECKPOINT_DATA, a frame of exactly one header stamp is CHECKPOINT_END, and success is exactly a CHECKPOINT_DATA(_V2) frame whose length is not exactly one header stamp |
| PortText.Tokens | src/kp_usb_jni.c:114-121 | strtok's tokens are non-empty and free of '-' |
| PortText.TokensOfJoin | src/kp_usb_jni.c:114-121 | splitting tokens joined with '-' gives them back |
| PortText.AtoiOfNumeral | src/kp_usb_jni.c:117 | atoi of a digit string is its value (32-bit) |
| PortText.AtoiOfDigits | src/kp_usb_jni.c:117 | atoi of a digit string extended by a digit is ten times its value plus that digit, in 32 bits |
| PortText.ScanSkipsSpaceAndSuffix | src/kp_usb_jni.c:117 | atoi skips leading white space and ignores whatever follows the digits |
| PortText.ScanSkipsSpace | src/kp_usb_jni.c:117 | leading white space does not change what atoi reads |
| PortText.ScanPlus | src/kp_usb_jni.c:117 | a plus sign after the white space is skipped |
| PortPath.GeneratePortId | src/kp_usb_jni.c:104-129 | the loop computes the identifier of the path's tokens: bus & 3 in bits 0-1 and up to six port numbers OR-ed in from bit 2, five bits apart |
| PortPath.PackTokens | src/kp_usb_jni.c:113-126 | over the tokens strtok yields, the identifier has bus & 3 in bits 0-1 and the first six port numbers OR-ed in from bit 2, five bits apart; no token gives 0 |
| PortPath.PortIdBus | src/kp_usb_jni.c:117-125 | the identifier holds the bus number modulo 4 in bits 0-1, whatever the port numbers |
| PortPath.PortIdFields | src/kp_usb_jni.c:117-125 | when every port number fits five bits the identifier holds port j in field j, unused fields 0 |
| PortPath.ExtraTokensIgnored | src/kp_usb_jni.c:121 | tokens after the seventh do not change the identifier |
| PortPath.OverflowingPathsCollide | src/kp_usb_jni.c:123 | "1-32" and "1-0-1" get the same identifier |
| PortPath.MaskedPortIdFields | src/kp_usb_jni.c:123 | with each port number masked to five bits every used port is recovered modulo 32 from its own field, whatever the numbers |
| PortPath.MaskedAgreesWhenPortsFit | src/kp_usb_jni.c:123 | masking changes nothing when every port number fits its field |
| PortBits.PortFieldOfPack | src/kp_usb_jni.c:117-125 | field j of a packed identifier holds port j + 1 for j below the count and 0 beyond, when ports fit or are masked |
| PortBits.BusOfPack | src/kp_usb_jni.c:117-125 | the bus field of a packed identifier is the bus number modulo 4, whatever the port numbers, masked or not |
| PortBits.MaskedPackAgrees | src/kp_usb_jni.c:123 | masking changes no packed identifier whose ports fit |
| PortBits.PackCollision | src/kp_usb_jni.c:123 | a bus with the single port 32 packs like the same bus with ports 0 and 1 |
| PortBits.PortOverflowsIntoNextField | src/kp_usb_jni.c:123 | a port number from 32 to 63 also sets the lowest bit of the next port's field |

## Left out

- Memory allocation is not modelled. The `malloc`/`calloc`/`realloc` failures
  (MEMORY_ALLOCATION_FAILURE, NULL results) and the copying of names and
  arrays are absent. Outputs are fresh values.
- Floating-point arithmetic is not modelled. The float decoder pairs each
  element with the descriptor its factor `scale * 2^radix` comes from. The
  division itself is not computed.
- Debug output (`printf`, `dbg_print`) is not modelled.
- USB I/O, timeouts and libusb are not modelled. Write outcomes and read
  results are parameters.
- `kp_dbg_receive_checkpoint_data` is modelled only up to its header checks.
  The construction of the checkpoint node data after them is not modelled,
  because it copies firmware structures not defined in the modelled files.
- `KP_MAX_INPUT_NODE_COUNT` and the `sizeof` values of the frame headers
  come from headers that are not part of this model. They are configuration
  fields.
- `kp_hw_pre_proc_info_t` is kept as an opaque record.
- RawNode.RetrieveRawFixedNode uses the corrected node-index check, not the
  check as written (see Findings). The written check is modelled separately.
- RawNode.RetrieveRawFixedNode: the quantization-version and shape-version
  checks of the raw node are not modelled. The extraction builds version-1
  quantization and version 1 or 2 shapes only.
- LegacyDecode.Gather: the V1 branches produce channel*height*width elements
  only. A V1 node with a batch extent above 1 is decoded like a batch of 1,
  as the source's loops do.
- NdWalk.ElementValue: high/low layouts on V1 nodes are decoded as int8 by
  the legacy branch. The high/low packing is modelled for the V2 walk only.
- Devices.DeviceGroup.ImageInferenceReceive copies the
  `num_of_pre_proc_info` records of a V1 result without a bound, as the
  source does. The model requires the frame to hold that many records. The
  overflow of the caller's array is not modelled.
- Lookups.ImageSizeBytes: sizes are unbounded integers. The C `int`
  overflow of width*height*bytes is not modelled. YUV420's 1.5 bytes per
  pixel is taken as half of 3 * width * height.
- PortText.Atoi: an out-of-range value wraps to 32 bits. In C this is
  undefined behaviour. glibc's atoi is `(int)strtol`: where `long` has 64
  bits, strtol saturates only beyond 2^63 and the conversion to int keeps
  the low 32 bits, as the model does. Only where `long` has 32 bits does it
  saturate at INT_MAX/INT_MIN.
- PortPath.GeneratePortId: a NULL path is not modelled, because `string`
  has no null value. The source's NULL check is commented out
  (src/kp_usb_jni.c:105-107), so a NULL path reaches `strdup(NULL)`, which is
  undefined behaviour. A `strdup` failure (which returns 0) is not modelled
  either, because an allocation cannot fail here.
- FixedPoint.FillDescriptors builds a fresh list. The entries the source has
  already written into the caller's array before it fails are not modelled.
- NdWalk.WalkNode requires a shape of at least one axis, whose volume fits
  32 bits and whose extents are positive. The source's walk never ends on a
  zero extent. A V2 node with shape_len 0 is excluded, because the source
  then compares `onnx_data_shape_index[0]` of a zero-length `calloc`
  (src/kp_inference.c:1538).
- KneReader.ConstructQuantization and KneReader.ConstructTensor require
  their container to be readable, and exclude the containers on which
  src/kne_reader.c reads past a vector. ConstructQuantization requires a
  radix vector of length 1 or of the full descriptor count, and enough
  scale bytes for the scale cursor. ConstructTensor requires at least one
  aligned stride per axis (`|strideAligned| >= |shape|`). The container is
  read from a file, so those reads past the vectors are undefined behaviour
  the model does not capture.
- Retrieve.RetrieveFloatNode requires V2 offsets below 2^31, because the
  float decoder indexes with `int`.
- Retrieve.RetrieveFloatNode keeps the channel-wise selection as written
  (descriptor t / S, see Findings). The corrected selection is defined and
  proved beside it, but the float decoder does not use it, because with it
  the decoder would no longer fail where the source fails.
- Retrieve.DecodeFixedNode: for V1 the source writes as many elements as the
  loops run into a buffer of num_data elements (the ONNX product). The model
  returns the elements written next to num_data. When fewer are written, the
  rest of the C buffer stays uninitialised. When more are written, the C buffer
  overflows. Neither is modelled.
- LegacyDecode.LegacyNestCount: the `int` products height * channel and
  height * width and the `int` index arithmetic of the V1 loops are unbounded
  integers in the model. Their signed overflow is undefined behaviour in C and
  is not modelled. The 32-bit `round_up` of the width is modelled.

## Findings

| source | as written | input that shows it | evidently intended | confidence | as-written member | corrected member |
|---|---|---|---|---|---|---|
| src/kp_inference.c:857, 928, 991, 1066 | `if (node_idx > total - 1)` rejects an index, with total - 1 computed and compared in uint32 | a result with 0 output nodes (or a negative signed count on KL720/KL630) and any node_idx: total - 1 wraps to 0xFFFFFFFF and the index is accepted, then the node table is read out of bounds | reject unless `node_idx < total` | high, by proof; not executed | RawNode.NodeIndexAcceptedAsWritten, RawNode.EmptyTableAcceptsEveryIndex | RawNode.NodeIndexValid, RawNode.NodeIndexChecksAgree |
| src/kp_usb_jni.c:121-123 | each port number is OR-ed in at bit 2 + 5k without masking to its five bits | paths "1-32" and "1-0-1": port 32 spills into the next port's field and both paths get the same identifier | mask each port number to five bits (`port_num & 0x1f`) as the bus number is masked to two | medium, by proof; not executed | PortPath.PortIdOf, PortPath.OverflowingPathsCollide | PortPath.MaskedPortIdOf, PortPath.MaskedPortIdFields |
| src/kp_inference.c:292, 1976-1983 | channel-wise, the float decoder reads a new descriptor every S elements, with S the product of every extent but the quantized axis's, so element t gets descriptor t / S | a shape [2, 2] quantized on axis 1 with two descriptors: element (0, 1) is divided by descriptor 0's factor, not its column's (descriptor 1) | descriptor (t / L) % C, with L the product of the extents after the quantized axis and C its extent | low, by proof; the two agree whenever the axes before the quantized one have extent 1, as for a quantized axis 1 with batch 1; not executed | Retrieve.FloatChannelWise, Retrieve.ChannelSelectionMismatch | Retrieve.IntendedChannel, Retrieve.IntendedChannelIsCoordinate, Retrieve.ChannelSelectionsAgree |

