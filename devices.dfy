/**
 * The device group of the inference library (src/kp_inference.c with
 * _kp_devices_group_t of src/include/local/kp_internal.h): the round-robin
 * cursors `cur_send` and `cur_recv`, and the validation and framing of the
 * generic image/data sends and receives, the customized send and receive,
 * and the header checks of the checkpoint receive.
 *
 * USB transfers are not performed: a send takes the outcome of its k-th
 * write as `usb(k)` and returns the writes it attempted; a receive takes the
 * return value of the read and the decoded frame it delivered.
 */
module Devices {
  import opened Types
  import opened Lookups

  /** KP_MAX_INPUT_NODE_COUNT_V1. */
  const MaxInputNodeCountV1: nat := 5
  /** KDP2_INF_ID_GENERIC_RAW. */
  const JobGenericRaw: nat := 10
  /** KDP2_INF_ID_GENERIC_RAW_BYPASS_PRE_PROC. */
  const JobGenericRawBypassPreProc: nat := 17

  /** One loaded model: its id and the number of input nodes it takes. */
  datatype ModelDesc = ModelDesc(id: nat, inputNodesNum: nat)

  /**
   * The fields of a device group that the calls read but never write, and
   * the sizes of the structures they frame (sizeof values of types defined
   * outside the modelled files, and KP_MAX_INPUT_NODE_COUNT).
   */
  datatype GroupConfig = GroupConfig(
    numDevice: nat,
    productId: Chip,
    models: seq<ModelDesc>,
    inputBufferCount: nat,
    inputBufferSize: nat,
    maxInputNodeCount: nat,
    imageHeaderSize: nat,
    dataHeaderSize: nat,
    stampSize: nat)

  /** The outcome of one kp_usb_write_data call. */
  datatype UsbStatus = UsbOk | UsbTimeout | UsbFailed(code: int)

  /** check_inf_desc_error and check_send_image_error: a timeout, or the call's own failure code. */
  function WriteStatus(u: UsbStatus, failure: int): int
  {
    match u
    case UsbOk => Success
    case UsbTimeout => ErrUsbTimeout
    case UsbFailed(_) => failure
  }

  // ---------------------------------------------------------------------------
  // The round-robin cursor.

  /** `cur++; if (cur >= num_device) cur = 0;` */
  function NextCursor(cur: nat, n: nat): nat
  {
    if cur + 1 >= n then 0 else cur + 1
  }

  /** The cursor step is the successor modulo the device count and stays in range. */
  lemma NextCursorWraps(cur: nat, n: nat)
    requires cur < n
    ensures NextCursor(cur, n) == (cur + 1) % n && NextCursor(cur, n) < n
  {
    if cur + 1 < n {
      DivModUnique(cur + 1, n, 0, cur + 1);
    } else {
      DivModUnique(cur + 1, n, 1, 0);
    }
  }

  // ---------------------------------------------------------------------------
  // Generic image and data sends.

  datatype SendKind = ImageSend | DataSend

  /** One input node: an image with its format and size, or a raw data buffer. */
  datatype NodeInput = ImageNode(format: ImageFormat, width: nat, height: nat) | DataNode(bufferSize: nat)

  /** kp_generic_image_inference_desc_t and kp_generic_data_inference_desc_t; `nodes` is the fixed-size list. */
  datatype InferenceDesc = InferenceDesc(inferenceNumber: nat, modelId: nat, numInputNode: nat, nodes: seq<NodeInput>)

  /** The header stamp fields a send sets. */
  datatype SendStamp = SendStamp(magic: Magic, totalSize: nat, jobId: nat, totalImage: nat, imageIndex: nat)

  /** What one write carries. */
  datatype Frame =
    | InfHeader(stamp: SendStamp, inferenceNumber: nat, modelId: nat, node: NodeInput)
    | Payload(nodeIndex: nat, size: nat)
    | CustomHeader(customStamp: SendStamp, headerSize: int)
    | CustomPayload(imageSize: int)

  /** One attempted write, to device `device` of the group. */
  datatype Write = Write(device: nat, frame: Frame)

  datatype SendResult = SendResult(status: int, writes: seq<Write>)

  /** The most input nodes a call may carry: KP_MAX_INPUT_NODE_COUNT on KL730/KL830, 5 elsewhere. */
  function InputNodeLimit(cfg: GroupConfig): nat
  {
    if cfg.productId == KL730 || cfg.productId == KL830 then cfg.maxInputNodeCount else MaxInputNodeCountV1
  }

  /** check_model_input_node_number_is_correct. */
  predicate InputNodeNumberMatches(models: seq<ModelDesc>, modelId: nat, n: nat)
  {
    exists m :: 0 <= m < |models| && models[m].id == modelId && models[m].inputNodesNum == n
  }

  /** check_model_id_is_exist_in_nef. */
  predicate ModelLoaded(models: seq<ModelDesc>, modelId: nat)
  {
    exists m :: 0 <= m < |models| && models[m].id == modelId
  }

  /** The fixed-size node list holds every node the limit permits. */
  predicate DescFits(cfg: GroupConfig, inf: InferenceDesc)
  {
    InputNodeLimit(cfg) <= |inf.nodes|
  }

  function JobOf(kind: SendKind): nat
  {
    if kind == ImageSend then JobGenericRaw else JobGenericRawBypassPreProc
  }

  function HeaderSizeOf(cfg: GroupConfig, kind: SendKind): nat
  {
    if kind == ImageSend then cfg.imageHeaderSize else cfg.dataHeaderSize
  }

  /** The payload of a node: get_image_size for an image, buffer_size for data. */
  function PayloadSize(node: NodeInput): (int, nat)
  {
    match node
    case ImageNode(f, w, h) => ImageSize(f, w, h)
    case DataNode(b) => (Success, b)
  }

  /** The stamp of frame i: total_size is the uint32 sum of header and payload. */
  function FrameStamp(cfg: GroupConfig, kind: SendKind, inf: InferenceDesc, i: nat): SendStamp
    requires i < |inf.nodes|
  {
    SendStamp(MagicInference, Wrap32(HeaderSizeOf(cfg, kind) + PayloadSize(inf.nodes[i]).1), JobOf(kind),
              inf.numInputNode, i)
  }

  function HeaderWrite(cfg: GroupConfig, kind: SendKind, dev: nat, inf: InferenceDesc, i: nat): Write
    requires i < |inf.nodes|
  {
    Write(dev, InfHeader(FrameStamp(cfg, kind, inf, i), inf.inferenceNumber, inf.modelId, inf.nodes[i]))
  }

  function PayloadWrite(dev: nat, inf: InferenceDesc, i: nat): Write
    requires i < |inf.nodes|
  {
    Write(dev, Payload(i, PayloadSize(inf.nodes[i]).1))
  }

  /** The frames from i on: header then payload per node, stopping at the first failure. */
  function Frames(cfg: GroupConfig, kind: SendKind, dev: nat, inf: InferenceDesc, usb: nat -> UsbStatus, i: nat): SendResult
    requires inf.numInputNode <= |inf.nodes|
    decreases inf.numInputNode - i
  {
    if i >= inf.numInputNode then SendResult(Success, [])
    else if PayloadSize(inf.nodes[i]).0 != Success then SendResult(PayloadSize(inf.nodes[i]).0, [])
    else if FrameStamp(cfg, kind, inf, i).totalSize > cfg.inputBufferSize then SendResult(ErrSendDataTooLarge, [])
    else if WriteStatus(usb(2 * i), ErrSendDescFail) != Success then
      SendResult(WriteStatus(usb(2 * i), ErrSendDescFail), [HeaderWrite(cfg, kind, dev, inf, i)])
    else if WriteStatus(usb(2 * i + 1), ErrSendDataFail) != Success then
      SendResult(WriteStatus(usb(2 * i + 1), ErrSendDataFail), [HeaderWrite(cfg, kind, dev, inf, i), PayloadWrite(dev, inf, i)])
    else
      var rest := Frames(cfg, kind, dev, inf, usb, i + 1);
      SendResult(rest.status, [HeaderWrite(cfg, kind, dev, inf, i), PayloadWrite(dev, inf, i)] + rest.writes)
  }

  /**
   * A generic send over device `dev`: the node-count limit, the model's
   * input-node count, the FIFO buffer count and the model id are checked in
   * that order before any frame is written.
   */
  function SendSpec(cfg: GroupConfig, kind: SendKind, dev: nat, inf: InferenceDesc, usb: nat -> UsbStatus): SendResult
    requires DescFits(cfg, inf)
  {
    var n := inf.numInputNode;
    if n > InputNodeLimit(cfg) then SendResult(ErrInvalidInputNodeDataNumber, [])
    else if !InputNodeNumberMatches(cfg.models, inf.modelId, n) then SendResult(ErrInvalidParam, [])
    else if cfg.inputBufferCount < n then SendResult(ErrFifoInputBufferCountNotEnough, [])
    else if !ModelLoaded(cfg.models, inf.modelId) then SendResult(ErrModelNotLoaded, [])
    else Frames(cfg, kind, dev, inf, usb, 0)
  }

  /** The write at position k of a send: header of frame k/2 when k is even, its payload otherwise. */
  function ExpectedWrite(cfg: GroupConfig, kind: SendKind, dev: nat, inf: InferenceDesc, k: nat): Write
    requires k < 2 * |inf.nodes|
  {
    if k % 2 == 0 then HeaderWrite(cfg, kind, dev, inf, k / 2) else PayloadWrite(dev, inf, k / 2)
  }

  /** A frame passes its checks and both its writes succeed: the send goes on to the next frame. */
  predicate FrameGoesThrough(cfg: GroupConfig, kind: SendKind, inf: InferenceDesc, usb: nat -> UsbStatus, i: nat)
    requires i < |inf.nodes|
  {
    PayloadSize(inf.nodes[i]).0 == Success
    && FrameStamp(cfg, kind, inf, i).totalSize <= cfg.inputBufferSize
    && WriteStatus(usb(2 * i), ErrSendDescFail) == Success
    && WriteStatus(usb(2 * i + 1), ErrSendDataFail) == Success
  }

  /** A frame that passes its checks and both writes is followed by the frames after it. */
  lemma FramesStep(cfg: GroupConfig, kind: SendKind, dev: nat, inf: InferenceDesc, usb: nat -> UsbStatus, i: nat)
    requires inf.numInputNode <= |inf.nodes| && i < inf.numInputNode && FrameGoesThrough(cfg, kind, inf, usb, i)
    ensures Frames(cfg, kind, dev, inf, usb, i)
            == After([HeaderWrite(cfg, kind, dev, inf, i), PayloadWrite(dev, inf, i)], Frames(cfg, kind, dev, inf, usb, i + 1))
  {
  }

  /** The status and the number of writes of a frame that goes through are those of the frames after it, plus its two writes. */
  lemma FramesStepShape(cfg: GroupConfig, kind: SendKind, dev: nat, inf: InferenceDesc, usb: nat -> UsbStatus, i: nat)
    requires inf.numInputNode <= |inf.nodes| && i < inf.numInputNode && FrameGoesThrough(cfg, kind, inf, usb, i)
    ensures Frames(cfg, kind, dev, inf, usb, i).status == Frames(cfg, kind, dev, inf, usb, i + 1).status
    ensures |Frames(cfg, kind, dev, inf, usb, i).writes| == 2 + |Frames(cfg, kind, dev, inf, usb, i + 1).writes|
  {
  }

  /** Writes `ws` are the expected writes of a send from position 2i on. */
  predicate LaidOut(cfg: GroupConfig, kind: SendKind, dev: nat, inf: InferenceDesc, i: nat, ws: seq<Write>)
    requires inf.numInputNode <= |inf.nodes|
  {
    2 * i + |ws| <= 2 * inf.numInputNode
    && forall k :: 0 <= k < |ws| ==> ws[k] == ExpectedWrite(cfg, kind, dev, inf, 2 * i + k)
  }

  lemma LaidOutCons(cfg: GroupConfig, kind: SendKind, dev: nat, inf: InferenceDesc, i: nat, rest: seq<Write>)
    requires inf.numInputNode <= |inf.nodes| && i < inf.numInputNode
    requires LaidOut(cfg, kind, dev, inf, i + 1, rest)
    ensures LaidOut(cfg, kind, dev, inf, i, [HeaderWrite(cfg, kind, dev, inf, i), PayloadWrite(dev, inf, i)] + rest)
  {
    var ws := [HeaderWrite(cfg, kind, dev, inf, i), PayloadWrite(dev, inf, i)] + rest;
    assert (2 * i + 1) / 2 == i && (2 * i + 1) % 2 == 1;
    forall k | 0 <= k < |ws|
      ensures ws[k] == ExpectedWrite(cfg, kind, dev, inf, 2 * i + k)
    {
      if k >= 2 {
        assert ws[k] == rest[k - 2];
        assert 2 * (i + 1) + (k - 2) == 2 * i + k;
      }
    }
  }

  /** The frames from i on are written in order, two writes per node, to device `dev`. */
  lemma {:induction false} FramesLayout(cfg: GroupConfig, kind: SendKind, dev: nat, inf: InferenceDesc,
                                        usb: nat -> UsbStatus, i: nat)
    requires inf.numInputNode <= |inf.nodes| && i <= inf.numInputNode
    ensures LaidOut(cfg, kind, dev, inf, i, Frames(cfg, kind, dev, inf, usb, i).writes)
    decreases inf.numInputNode - i, 1
  {
    if i < inf.numInputNode && FrameGoesThrough(cfg, kind, inf, usb, i) {
      FramesLayoutStep(cfg, kind, dev, inf, usb, i);
    } else if i < inf.numInputNode && PayloadSize(inf.nodes[i]).0 == Success
              && FrameStamp(cfg, kind, inf, i).totalSize <= cfg.inputBufferSize
              && WriteStatus(usb(2 * i), ErrSendDescFail) == Success {
      assert (2 * i + 1) / 2 == i && (2 * i + 1) % 2 == 1;
    }
  }

  lemma {:induction false} FramesLayoutStep(cfg: GroupConfig, kind: SendKind, dev: nat, inf: InferenceDesc,
                                            usb: nat -> UsbStatus, i: nat)
    requires inf.numInputNode <= |inf.nodes| && i < inf.numInputNode && FrameGoesThrough(cfg, kind, inf, usb, i)
    ensures LaidOut(cfg, kind, dev, inf, i, Frames(cfg, kind, dev, inf, usb, i).writes)
    decreases inf.numInputNode - i, 0
  {
    FramesStep(cfg, kind, dev, inf, usb, i);
    FramesLayout(cfg, kind, dev, inf, usb, i + 1);
    LaidOutCons(cfg, kind, dev, inf, i, Frames(cfg, kind, dev, inf, usb, i + 1).writes);
  }

  /**
   * A success writes every node from i on; SEND_DATA_TOO_LARGE stops before
   * any byte of the offending frame, after every earlier frame was written
   * whole; every frame written fits the input buffer.
   */
  lemma FramesCount(cfg: GroupConfig, kind: SendKind, dev: nat, inf: InferenceDesc,
                    usb: nat -> UsbStatus, i: nat)
    requires inf.numInputNode <= |inf.nodes| && i <= inf.numInputNode
    ensures var r := Frames(cfg, kind, dev, inf, usb, i);
            2 * i + |r.writes| <= 2 * inf.numInputNode
            && (r.status == Success ==> |r.writes| == 2 * (inf.numInputNode - i))
            && (r.status == ErrSendDataTooLarge ==>
                  |r.writes| % 2 == 0 && i + |r.writes| / 2 < inf.numInputNode
                  && FrameStamp(cfg, kind, inf, i + |r.writes| / 2).totalSize > cfg.inputBufferSize)
            && (forall j :: i <= j < i + |r.writes| / 2 ==> FrameStamp(cfg, kind, inf, j).totalSize <= cfg.inputBufferSize)
  {
    FramesLength(cfg, kind, dev, inf, usb, i);
    FramesTooLarge(cfg, kind, dev, inf, usb, i);
    FramesFit(cfg, kind, dev, inf, usb, i);
  }

  /** The frames from i on write at most two writes per remaining node, exactly that many on success. */
  lemma {:induction false} FramesLength(cfg: GroupConfig, kind: SendKind, dev: nat, inf: InferenceDesc,
                                        usb: nat -> UsbStatus, i: nat)
    requires inf.numInputNode <= |inf.nodes| && i <= inf.numInputNode
    ensures var r := Frames(cfg, kind, dev, inf, usb, i);
            2 * i + |r.writes| <= 2 * inf.numInputNode
            && (r.status == Success ==> |r.writes| == 2 * (inf.numInputNode - i))
    decreases inf.numInputNode - i
  {
    if i < inf.numInputNode && FrameGoesThrough(cfg, kind, inf, usb, i) {
      FramesStep(cfg, kind, dev, inf, usb, i);
      FramesLength(cfg, kind, dev, inf, usb, i + 1);
    }
  }

  /** SEND_DATA_TOO_LARGE comes after whole frames only, and names a frame that does not fit. */
  lemma {:induction false} FramesTooLarge(cfg: GroupConfig, kind: SendKind, dev: nat, inf: InferenceDesc,
                                          usb: nat -> UsbStatus, i: nat)
    requires inf.numInputNode <= |inf.nodes| && i <= inf.numInputNode
    ensures var r := Frames(cfg, kind, dev, inf, usb, i);
            r.status == ErrSendDataTooLarge ==>
              |r.writes| % 2 == 0 && i + |r.writes| / 2 < inf.numInputNode
              && FrameStamp(cfg, kind, inf, i + |r.writes| / 2).totalSize > cfg.inputBufferSize
    decreases inf.numInputNode - i, 1
  {
    var r := Frames(cfg, kind, dev, inf, usb, i);
    if i >= inf.numInputNode || PayloadSize(inf.nodes[i]).0 != Success {
      assert r.writes == [];
    } else if FrameStamp(cfg, kind, inf, i).totalSize > cfg.inputBufferSize {
      assert r.writes == [] && i + 0 / 2 == i;
    } else if WriteStatus(usb(2 * i), ErrSendDescFail) != Success {
      assert r.status == WriteStatus(usb(2 * i), ErrSendDescFail);
    } else if WriteStatus(usb(2 * i + 1), ErrSendDataFail) != Success {
      assert r.status == WriteStatus(usb(2 * i + 1), ErrSendDataFail);
    } else {
      FramesTooLargeStep(cfg, kind, dev, inf, usb, i);
    }
  }

  lemma {:induction false} FramesTooLargeStep(cfg: GroupConfig, kind: SendKind, dev: nat, inf: InferenceDesc,
                                              usb: nat -> UsbStatus, i: nat)
    requires inf.numInputNode <= |inf.nodes| && i < inf.numInputNode && FrameGoesThrough(cfg, kind, inf, usb, i)
    ensures var r := Frames(cfg, kind, dev, inf, usb, i);
            r.status == ErrSendDataTooLarge ==>
              |r.writes| % 2 == 0 && i + |r.writes| / 2 < inf.numInputNode
              && FrameStamp(cfg, kind, inf, i + |r.writes| / 2).totalSize > cfg.inputBufferSize
    decreases inf.numInputNode - i, 0
  {
    FramesStepShape(cfg, kind, dev, inf, usb, i);
    var r, rest := Frames(cfg, kind, dev, inf, usb, i), Frames(cfg, kind, dev, inf, usb, i + 1);
    if rest.status == ErrSendDataTooLarge {
      FramesTooLarge(cfg, kind, dev, inf, usb, i + 1);
      Halves(|rest.writes|);
      assert i + |r.writes| / 2 == (i + 1) + |rest.writes| / 2;
    }
  }

  /** Every frame written whole fits the input buffer. */
  lemma {:induction false} FramesFit(cfg: GroupConfig, kind: SendKind, dev: nat, inf: InferenceDesc,
                                     usb: nat -> UsbStatus, i: nat)
    requires inf.numInputNode <= |inf.nodes| && i <= inf.numInputNode
    ensures var r := Frames(cfg, kind, dev, inf, usb, i);
            2 * i + |r.writes| <= 2 * inf.numInputNode
            && forall j :: i <= j < i + |r.writes| / 2 ==> FrameStamp(cfg, kind, inf, j).totalSize <= cfg.inputBufferSize
    decreases inf.numInputNode - i, 1
  {
    FramesLength(cfg, kind, dev, inf, usb, i);
    if i < inf.numInputNode && FrameGoesThrough(cfg, kind, inf, usb, i) {
      FramesFitStep(cfg, kind, dev, inf, usb, i);
    }
  }

  lemma {:induction false} FramesFitStep(cfg: GroupConfig, kind: SendKind, dev: nat, inf: InferenceDesc,
                                         usb: nat -> UsbStatus, i: nat)
    requires inf.numInputNode <= |inf.nodes| && i < inf.numInputNode && FrameGoesThrough(cfg, kind, inf, usb, i)
    ensures var r := Frames(cfg, kind, dev, inf, usb, i);
            2 * i + |r.writes| <= 2 * inf.numInputNode
            && forall j :: i <= j < i + |r.writes| / 2 ==> FrameStamp(cfg, kind, inf, j).totalSize <= cfg.inputBufferSize
    decreases inf.numInputNode - i, 0
  {
    FramesStep(cfg, kind, dev, inf, usb, i);
    FramesFit(cfg, kind, dev, inf, usb, i + 1);
    var r, n := Frames(cfg, kind, dev, inf, usb, i), |Frames(cfg, kind, dev, inf, usb, i + 1).writes|;
    assert |r.writes| == 2 + n;
    Halves(n);
    assert i + |r.writes| / 2 == (i + 1) + n / 2;
  }

  lemma Halves(n: nat)
    ensures (2 + n) / 2 == 1 + n / 2 && (2 + n) % 2 == n % 2
  {
  }

  /** A result preceded by the writes done before it. */
  function After(done: seq<Write>, r: SendResult): SendResult
  {
    SendResult(r.status, done + r.writes)
  }

  lemma AfterAssociates(a: seq<Write>, b: seq<Write>, r: SendResult)
    ensures After(a, After(b, r)) == After(a + b, r)
  {
    assert a + (b + r.writes) == (a + b) + r.writes;
  }

  /** The model-id check never fires: a model matching the input-node count has that id. */
  lemma ModelNotLoadedUnreachable(cfg: GroupConfig, kind: SendKind, dev: nat, inf: InferenceDesc, usb: nat -> UsbStatus)
    requires DescFits(cfg, inf)
    ensures SendSpec(cfg, kind, dev, inf, usb).status != ErrModelNotLoaded
  {
    var n := inf.numInputNode;
    if n <= InputNodeLimit(cfg) && InputNodeNumberMatches(cfg.models, inf.modelId, n) && cfg.inputBufferCount >= n {
      var m :| 0 <= m < |cfg.models| && cfg.models[m].id == inf.modelId && cfg.models[m].inputNodesNum == n;
      assert ModelLoaded(cfg.models, inf.modelId);
      FramesNeverModelNotLoaded(cfg, kind, dev, inf, usb, 0);
    }
  }

  /** The frame loop returns only payload-size, buffer-size and USB statuses. */
  lemma {:induction false} FramesNeverModelNotLoaded(cfg: GroupConfig, kind: SendKind, dev: nat, inf: InferenceDesc,
                                                     usb: nat -> UsbStatus, i: nat)
    requires inf.numInputNode <= |inf.nodes|
    ensures Frames(cfg, kind, dev, inf, usb, i).status
            in {Success, ErrInvalidParam, ErrSendDataTooLarge, ErrUsbTimeout, ErrSendDescFail, ErrSendDataFail}
    decreases inf.numInputNode - i
  {
    if i < inf.numInputNode {
      FramesNeverModelNotLoaded(cfg, kind, dev, inf, usb, i + 1);
    }
  }

  /**
   * The validation of a send, in order: a status of 48, 12 or 42 comes from
   * its check with nothing written; a send writes something only when every
   * check passed.
   */
  lemma SendValidation(cfg: GroupConfig, kind: SendKind, dev: nat, inf: InferenceDesc, usb: nat -> UsbStatus)
    requires DescFits(cfg, inf)
    ensures var r := SendSpec(cfg, kind, dev, inf, usb);
            var n := inf.numInputNode;
            (n > InputNodeLimit(cfg) ==> r == SendResult(ErrInvalidInputNodeDataNumber, []))
            && (n <= InputNodeLimit(cfg) && !InputNodeNumberMatches(cfg.models, inf.modelId, n) ==>
                  r == SendResult(ErrInvalidParam, []))
            && ((n <= InputNodeLimit(cfg) && InputNodeNumberMatches(cfg.models, inf.modelId, n)
                 && cfg.inputBufferCount < n) ==> r == SendResult(ErrFifoInputBufferCountNotEnough, []))
            && (|r.writes| > 0 ==>
                  n <= InputNodeLimit(cfg) && InputNodeNumberMatches(cfg.models, inf.modelId, n)
                  && n <= cfg.inputBufferCount)
  {
  }

  /**
   * Framing of a send: write k goes to device `dev` and is the header of
   * node k/2 (stamp INFERENCE, total_size = header + payload in uint32,
   * total_image = n, image_index = k/2) when k is even and its payload
   * otherwise; a success writes 2n frames; SEND_DATA_TOO_LARGE names the
   * first frame that does not fit, none of whose bytes was written.
   */
  lemma SendFraming(cfg: GroupConfig, kind: SendKind, dev: nat, inf: InferenceDesc, usb: nat -> UsbStatus, k: nat)
    requires DescFits(cfg, inf)
    requires k < |SendSpec(cfg, kind, dev, inf, usb).writes|
    ensures var r := SendSpec(cfg, kind, dev, inf, usb);
            k / 2 < inf.numInputNode <= |inf.nodes|
            && r.writes[k].device == dev
            && (k % 2 == 0 ==>
                  r.writes[k].frame.InfHeader?
                  && r.writes[k].frame.stamp
                     == SendStamp(MagicInference, Wrap32(HeaderSizeOf(cfg, kind) + PayloadSize(inf.nodes[k / 2]).1),
                                  JobOf(kind), inf.numInputNode, k / 2))
            && (k % 2 == 1 ==> r.writes[k].frame == Payload(k / 2, PayloadSize(inf.nodes[k / 2]).1))
  {
    FramesLayout(cfg, kind, dev, inf, usb, 0);
  }

  lemma SendOutcome(cfg: GroupConfig, kind: SendKind, dev: nat, inf: InferenceDesc, usb: nat -> UsbStatus)
    requires DescFits(cfg, inf)
    ensures var r := SendSpec(cfg, kind, dev, inf, usb);
            (r.status == Success ==> |r.writes| == 2 * inf.numInputNode)
            && (r.status == ErrSendDataTooLarge ==>
                  |r.writes| % 2 == 0 && |r.writes| / 2 < inf.numInputNode <= |inf.nodes|
                  && FrameStamp(cfg, kind, inf, |r.writes| / 2).totalSize > cfg.inputBufferSize
                  && forall j :: 0 <= j < |r.writes| / 2 ==> FrameStamp(cfg, kind, inf, j).totalSize <= cfg.inputBufferSize)
  {
    if SendSpec(cfg, kind, dev, inf, usb).writes != [] || inf.numInputNode <= InputNodeLimit(cfg) {
      FramesCount(cfg, kind, dev, inf, usb, 0);
    }
  }

  // ---------------------------------------------------------------------------
  // Generic image and data receives.

  datatype ReceiveKind = ImageReceive | DataReceive

  /** kp_hw_pre_proc_info_t, kept as its words. */
  datatype PreProcInfo = PreProcInfo(words: seq<int>)

  /**
   * A result frame, decoded: its header stamp, the fields of the V1 or V2
   * result header, the pre-processing records it carries and the output node
   * count stored where its product's layout keeps it.
   */
  datatype ResultFrame = ResultFrame(stamp: HeaderStamp, productId: Chip, infNumber: nat, cropNumber: nat,
                                     isLastCrop: nat, numPreProcInfo: nat, preProcInfo: seq<PreProcInfo>,
                                     nodeCount: int)

  /** One kp_usb_read_data call: a negative return is a libusb error, otherwise the received frame. */
  datatype ReadOutcome = ReadOutcome(ret: int, frame: ResultFrame)

  /** kp_generic_image/data_inference_result_header_t; pre-processing records only for images. */
  datatype ResultHeader = ResultHeader(inferenceNumber: nat, cropNumber: nat, productId: Chip,
                                       numOutputNode: Option<int>, preProcInfo: Option<seq<PreProcInfo>>)

  datatype ReceiveResult = ReceiveResult(status: int, cursor: nat, header: Option<ResultHeader>)

  function ReceiveJob(kind: ReceiveKind): nat
  {
    if kind == ImageReceive then JobGenericRaw else JobGenericRawBypassPreProc
  }

  /** The copied pre-processing records exist in the frame. */
  predicate ReceiveReadable(cfg: GroupConfig, kind: ReceiveKind, read: ReadOutcome)
  {
    kind == ImageReceive ==>
      read.frame.numPreProcInfo <= |read.frame.preProcInfo|
      || (read.frame.stamp.magic == MagicInferenceV2 && read.frame.numPreProcInfo > cfg.maxInputNodeCount)
  }

  /** The products whose output node count the receive reports, by result version. */
  function OutputNodeCount(f: ResultFrame): Option<int>
  {
    if f.stamp.magic == MagicInference then
      if f.productId in {KL520, KL720, KL630, KL730, KL830} then Some(f.nodeCount) else None
    else if f.productId in {KL730, KL830} then Some(f.nodeCount) else None
  }

  function DecodedHeader(kind: ReceiveKind, f: ResultFrame): ResultHeader
    requires kind == ImageReceive ==> f.numPreProcInfo <= |f.preProcInfo|
  {
    ResultHeader(f.infNumber, f.cropNumber, f.productId, OutputNodeCount(f),
                 if kind == ImageReceive then Some(f.preProcInfo[..f.numPreProcInfo]) else None)
  }

  /**
   * A generic receive on device `cur`: a read error is returned as is, then
   * the header stamp is verified against the call's job id, then (images,
   * V2) the pre-processing count is bounded; the cursor moves on only past a
   * last crop.
   */
  function ReceiveSpec(cfg: GroupConfig, kind: ReceiveKind, cur: nat, read: ReadOutcome): ReceiveResult
    requires ReceiveReadable(cfg, kind, read)
  {
    var f := read.frame;
    var verified := VerifyResultHeaderStamp(f.stamp, 0, ReceiveJob(kind));
    if read.ret < 0 then ReceiveResult(read.ret, cur, None)
    else if verified != Success then ReceiveResult(verified, cur, None)
    else if kind == ImageReceive && f.stamp.magic == MagicInferenceV2 && f.numPreProcInfo > cfg.maxInputNodeCount then
      ReceiveResult(ErrInvalidInputNodeDataNumber, cur, None)
    else
      ReceiveResult(Success, if f.isLastCrop == 1 then NextCursor(cur, cfg.numDevice) else cur,
                    Some(DecodedHeader(kind, f)))
  }

  /**
   * The receive cursor stays in [0, num_device); a failed receive leaves it
   * and the output header alone; a successful one moves it to the next
   * device modulo num_device exactly when the frame is the last crop.
   */
  lemma ReceiveCursor(cfg: GroupConfig, kind: ReceiveKind, cur: nat, read: ReadOutcome)
    requires ReceiveReadable(cfg, kind, read) && cur < cfg.numDevice
    ensures var r := ReceiveSpec(cfg, kind, cur, read);
            r.cursor < cfg.numDevice
            && (r.status != Success ==> r.cursor == cur && r.header.None?)
            && (r.status == Success ==>
                  r.cursor == (if read.frame.isLastCrop == 1 then (cur + 1) % cfg.numDevice else cur))
  {
    NextCursorWraps(cur, cfg.numDevice);
  }

  /**
   * A successful receive had a non-negative read, an INFERENCE or
   * INFERENCE_V2 stamp with status 0 and the call's job id, and reports the
   * frame's inference and crop numbers and (images) the first
   * num_of_pre_proc_info records, at most KP_MAX_INPUT_NODE_COUNT for V2.
   */
  lemma ReceiveAccepted(cfg: GroupConfig, kind: ReceiveKind, cur: nat, read: ReadOutcome)
    requires ReceiveReadable(cfg, kind, read)
    ensures var r := ReceiveSpec(cfg, kind, cur, read);
            var f := read.frame;
            r.status == Success <==>
              read.ret >= 0 && IsInferenceMagic(f.stamp.magic) && f.stamp.statusCode == Success
              && f.stamp.jobId == ReceiveJob(kind)
              && !(kind == ImageReceive && f.stamp.magic == MagicInferenceV2 && f.numPreProcInfo > cfg.maxInputNodeCount)
    ensures var r := ReceiveSpec(cfg, kind, cur, read);
            var f := read.frame;
            r.status == Success ==>
              r.header.Some? && r.header.value.inferenceNumber == f.infNumber
              && r.header.value.cropNumber == f.cropNumber && r.header.value.productId == f.productId
              && (kind == ImageReceive <==> r.header.value.preProcInfo.Some?)
              && (kind == ImageReceive ==>
                    r.header.value.preProcInfo.value == f.preProcInfo[..f.numPreProcInfo]
                    && (f.stamp.magic == MagicInferenceV2 ==> |r.header.value.preProcInfo.value| <= cfg.maxInputNodeCount))
  {
  }

  // ---------------------------------------------------------------------------
  // Customized send and receive, checkpoint receive.

  datatype CustomSendResult = CustomSendResult(status: int, stamp: SendStamp, writes: seq<Write>)

  /**
   * kp_customized_inference_send over device `dev`: total_image is bounded
   * by KP_MAX_INPUT_NODE_COUNT (42) and image_index by total_image (12); then
   * the caller's stamp gets the INFERENCE magic and total_size = header_size
   * + image_size in uint32, which must fit the input buffer (15); the header
   * is written and then, when there is one, the image.
   */
  function CustomSendSpec(cfg: GroupConfig, dev: nat, stamp: SendStamp, headerSize: int, hasImage: bool,
                          imageSize: int, usb: nat -> UsbStatus): CustomSendResult
  {
    if cfg.maxInputNodeCount < stamp.totalImage then CustomSendResult(ErrFifoInputBufferCountNotEnough, stamp, [])
    else if stamp.imageIndex >= stamp.totalImage then CustomSendResult(ErrInvalidParam, stamp, [])
    else
      var s := stamp.(magic := MagicInference, totalSize := Wrap32(headerSize + imageSize));
      var h := Write(dev, CustomHeader(s, headerSize));
      if s.totalSize > cfg.inputBufferSize then CustomSendResult(ErrSendDataTooLarge, s, [])
      else if WriteStatus(usb(0), ErrSendDescFail) != Success then CustomSendResult(WriteStatus(usb(0), ErrSendDescFail), s, [h])
      else if !hasImage then CustomSendResult(Success, s, [h])
      else CustomSendResult(WriteStatus(usb(1), ErrSendDataFail), s, [h, Write(dev, CustomPayload(imageSize))])
  }

  /**
   * A customized send writes only a validated header: image_index <
   * total_image <= KP_MAX_INPUT_NODE_COUNT, magic INFERENCE and a total size
   * within the input buffer; the image follows only when there is one and the
   * header went through.
   */
  lemma CustomSendFraming(cfg: GroupConfig, dev: nat, stamp: SendStamp, headerSize: int, hasImage: bool,
                          imageSize: int, usb: nat -> UsbStatus)
    ensures var r := CustomSendSpec(cfg, dev, stamp, headerSize, hasImage, imageSize, usb);
            |r.writes| <= (if hasImage then 2 else 1)
            && (r.status == Success ==> |r.writes| == (if hasImage then 2 else 1))
            && (|r.writes| > 0 ==>
                  r.stamp.imageIndex < r.stamp.totalImage <= cfg.maxInputNodeCount
                  && r.stamp.magic == MagicInference && r.stamp.totalSize == Wrap32(headerSize + imageSize)
                  && r.stamp.totalSize <= cfg.inputBufferSize
                  && r.stamp.jobId == stamp.jobId && r.stamp.totalImage == stamp.totalImage
                  && r.writes[0] == Write(dev, CustomHeader(r.stamp, headerSize)))
            && (|r.writes| == 2 ==>
                  WriteStatus(usb(0), ErrSendDescFail) == Success && r.writes[1] == Write(dev, CustomPayload(imageSize)))
  {
  }

  datatype CustomReceiveResult = CustomReceiveResult(status: int, recvSize: Option<int>)

  /** kp_customized_inference_receive: a read error, else the size is reported and the stamp verified with no size or job check. */
  function CustomReceiveSpec(read: ReadOutcome): CustomReceiveResult
  {
    if read.ret < 0 then CustomReceiveResult(read.ret, None)
    else CustomReceiveResult(VerifyResultHeaderStamp(read.frame.stamp, 0, 0), Some(read.ret))
  }

  /** A customized receive succeeds exactly on a read with an INFERENCE(_V2) stamp of status 0, whatever its job id. */
  lemma CustomReceiveAccepted(read: ReadOutcome)
    ensures CustomReceiveSpec(read).status == Success <==>
              read.ret >= 0 && IsInferenceMagic(read.frame.stamp.magic) && read.frame.stamp.statusCode == Success
    ensures read.ret >= 0 ==> CustomReceiveSpec(read).recvSize == Some(read.ret)
    ensures read.ret < 0 ==> CustomReceiveSpec(read) == CustomReceiveResult(read.ret, None)
  {
  }

  /**
   * The header checks of kp_dbg_receive_checkpoint_data: a read error, then
   * a magic other than CHECKPOINT_DATA(_V2) (36), then a frame of exactly one
   * header stamp, which ends the checkpoints (37).
   */
  function CheckpointStatus(cfg: GroupConfig, read: ReadOutcome): (r: int)
    ensures read.ret < 0 ==> r == read.ret
    ensures r == Success <==>
              read.ret >= 0 && read.frame.stamp.magic in {MagicCheckpointData, MagicCheckpointDataV2}
              && read.ret != cfg.stampSize
    ensures read.ret >= 0 && read.frame.stamp.magic !in {MagicCheckpointData, MagicCheckpointDataV2} ==>
              r == ErrInvalidCheckpointData
    ensures (read.ret >= 0 && read.frame.stamp.magic in {MagicCheckpointData, MagicCheckpointDataV2}
             && read.ret == cfg.stampSize) ==> r == DbgCheckpointEnd
  {
    if read.ret < 0 then read.ret
    else if read.frame.stamp.magic != MagicCheckpointData && read.frame.stamp.magic != MagicCheckpointDataV2 then
      ErrInvalidCheckpointData
    else if read.ret == cfg.stampSize then DbgCheckpointEnd
    else Success
  }

  // ---------------------------------------------------------------------------
  // The device group.

  class DeviceGroup {
    const config: GroupConfig
    /** The device the next send uses. */
    var curSend: nat
    /** The device the next receive uses. */
    var curRecv: nat

    /** Both cursors name a device of the group. */
    predicate Valid()
      reads this
    {
      config.numDevice >= 1 && curSend < config.numDevice && curRecv < config.numDevice
    }

    constructor(config: GroupConfig)
      requires config.numDevice >= 1
      ensures Valid() && this.config == config && curSend == 0 && curRecv == 0
    {
      this.config := config;
      curSend := 0;
      curRecv := 0;
    }

    /** `ll_device[cur_send++]` with the wrap: the device to send on, before anything is checked. */
    method AdvanceSend() returns (dev: nat)
      requires Valid()
      modifies this
      ensures Valid() && dev == old(curSend) && curSend == NextCursor(old(curSend), config.numDevice)
      ensures curRecv == old(curRecv)
    {
      dev := curSend;
      curSend := curSend + 1;
      if curSend >= config.numDevice {
        curSend := 0;
      }
    }

    /** `ll_device[cur_recv++]` with the wrap, for the receives that always move on. */
    method AdvanceRecv() returns (dev: nat)
      requires Valid()
      modifies this
      ensures Valid() && dev == old(curRecv) && curRecv == NextCursor(old(curRecv), config.numDevice)
      ensures curSend == old(curSend)
    {
      dev := curRecv;
      curRecv := curRecv + 1;
      if curRecv >= config.numDevice {
        curRecv := 0;
      }
    }

    /** The model-table loops of check_model_input_node_number_is_correct and check_model_id_is_exist_in_nef. */
    method FindModel(modelId: nat, n: nat, checkInputs: bool) returns (found: bool)
      ensures checkInputs ==> (found <==> InputNodeNumberMatches(config.models, modelId, n))
      ensures !checkInputs ==> (found <==> ModelLoaded(config.models, modelId))
    {
      found := false;
      var m := 0;
      while m < |config.models|
        invariant 0 <= m <= |config.models|
        invariant forall j :: 0 <= j < m ==>
                    !(config.models[j].id == modelId && (checkInputs ==> config.models[j].inputNodesNum == n))
      {
        if config.models[m].id == modelId && (!checkInputs || config.models[m].inputNodesNum == n) {
          return true;
        }
        m := m + 1;
      }
    }

    /** The frame loop of a generic send. */
    method SendFrames(kind: SendKind, dev: nat, inf: InferenceDesc, usb: nat -> UsbStatus) returns (r: SendResult)
      requires inf.numInputNode <= |inf.nodes|
      ensures r == Frames(config, kind, dev, inf, usb, 0)
    {
      var writes: seq<Write> := [];
      var i := 0;
      while i < inf.numInputNode
        invariant 0 <= i <= inf.numInputNode
        invariant Frames(config, kind, dev, inf, usb, 0) == After(writes, Frames(config, kind, dev, inf, usb, i))
        decreases inf.numInputNode - i
      {
        ghost var here := Frames(config, kind, dev, inf, usb, i);
        var (st, size) := PayloadSize(inf.nodes[i]);
        if st != Success {
          assert here == SendResult(st, []);
          return SendResult(st, writes);
        }
        var stamp := SendStamp(MagicInference, Wrap32(HeaderSizeOf(config, kind) + size), JobOf(kind), inf.numInputNode, i);
        assert stamp == FrameStamp(config, kind, inf, i);
        if stamp.totalSize > config.inputBufferSize {
          assert here == SendResult(ErrSendDataTooLarge, []);
          return SendResult(ErrSendDataTooLarge, writes);
        }
        var header := Write(dev, InfHeader(stamp, inf.inferenceNumber, inf.modelId, inf.nodes[i]));
        var status := WriteStatus(usb(2 * i), ErrSendDescFail);
        if status != Success {
          assert here == SendResult(status, [header]);
          return SendResult(status, writes + [header]);
        }
        var payload := Write(dev, Payload(i, size));
        status := WriteStatus(usb(2 * i + 1), ErrSendDataFail);
        if status != Success {
          assert here == SendResult(status, [header, payload]);
          return SendResult(status, writes + [header, payload]);
        }
        ghost var rest := Frames(config, kind, dev, inf, usb, i + 1);
        assert here == After([header, payload], rest);
        AfterAssociates(writes, [header, payload], rest);
        writes := writes + [header, payload];
        i := i + 1;
      }
      r := SendResult(Success, writes);
    }

    /** The validation and framing shared by the generic image and data sends. */
    method GenericSend(kind: SendKind, inf: InferenceDesc, usb: nat -> UsbStatus) returns (r: SendResult)
      requires Valid() && DescFits(config, inf)
      modifies this
      ensures Valid() && curSend == NextCursor(old(curSend), config.numDevice) && curRecv == old(curRecv)
      ensures r == SendSpec(config, kind, old(curSend), inf, usb)
    {
      var dev := AdvanceSend();
      var n := inf.numInputNode;
      if n > InputNodeLimit(config) {
        return SendResult(ErrInvalidInputNodeDataNumber, []);
      }
      var matches := FindModel(inf.modelId, n, true);
      if !matches {
        return SendResult(ErrInvalidParam, []);
      } else if config.inputBufferCount < n {
        return SendResult(ErrFifoInputBufferCountNotEnough, []);
      }
      var loaded := FindModel(inf.modelId, n, false);
      if !loaded {
        return SendResult(ErrModelNotLoaded, []);
      }
      r := SendFrames(kind, dev, inf, usb);
    }

    /** kp_generic_image_inference_send. */
    method ImageInferenceSend(inf: InferenceDesc, usb: nat -> UsbStatus) returns (r: SendResult)
      requires Valid() && DescFits(config, inf)
      requires forall i :: 0 <= i < |inf.nodes| ==> inf.nodes[i].ImageNode?
      modifies this
      ensures Valid() && curSend == NextCursor(old(curSend), config.numDevice) && curRecv == old(curRecv)
      ensures r == SendSpec(config, ImageSend, old(curSend), inf, usb)
    {
      r := GenericSend(ImageSend, inf, usb);
    }

    /** kp_generic_data_inference_send. */
    method DataInferenceSend(inf: InferenceDesc, usb: nat -> UsbStatus) returns (r: SendResult)
      requires Valid() && DescFits(config, inf)
      requires forall i :: 0 <= i < |inf.nodes| ==> inf.nodes[i].DataNode?
      modifies this
      ensures Valid() && curSend == NextCursor(old(curSend), config.numDevice) && curRecv == old(curRecv)
      ensures r == SendSpec(config, DataSend, old(curSend), inf, usb)
    {
      r := GenericSend(DataSend, inf, usb);
    }

    /** kp_generic_image_inference_receive and kp_generic_data_inference_receive. */
    method GenericReceive(kind: ReceiveKind, read: ReadOutcome) returns (status: int, header: Option<ResultHeader>)
      requires Valid() && ReceiveReadable(config, kind, read)
      modifies this
      ensures Valid() && curSend == old(curSend)
      ensures ReceiveResult(status, curRecv, header) == ReceiveSpec(config, kind, old(curRecv), read)
    {
      header := None;
      if read.ret < 0 {
        return read.ret, None;
      }
      var f := read.frame;
      status := VerifyResultHeaderStamp(f.stamp, 0, ReceiveJob(kind));
      if status != Success {
        return status, None;
      }
      if kind == ImageReceive && f.stamp.magic == MagicInferenceV2 && f.numPreProcInfo > config.maxInputNodeCount {
        return ErrInvalidInputNodeDataNumber, None;
      }
      header := Some(DecodedHeader(kind, f));
      if f.isLastCrop == 1 {
        curRecv := curRecv + 1;
      }
      if curRecv >= config.numDevice {
        curRecv := 0;
      }
    }

    /** kp_generic_image_inference_receive. */
    method ImageInferenceReceive(read: ReadOutcome) returns (status: int, header: Option<ResultHeader>)
      requires Valid() && ReceiveReadable(config, ImageReceive, read)
      modifies this
      ensures Valid() && curSend == old(curSend)
      ensures ReceiveResult(status, curRecv, header) == ReceiveSpec(config, ImageReceive, old(curRecv), read)
    {
      status, header := GenericReceive(ImageReceive, read);
    }

    /** kp_generic_data_inference_receive. */
    method DataInferenceReceive(read: ReadOutcome) returns (status: int, header: Option<ResultHeader>)
      requires Valid()
      modifies this
      ensures Valid() && curSend == old(curSend)
      ensures ReceiveResult(status, curRecv, header) == ReceiveSpec(config, DataReceive, old(curRecv), read)
    {
      status, header := GenericReceive(DataReceive, read);
    }

    /** kp_customized_inference_send: the cursor moves on before the checks. */
    method CustomizedSend(stamp: SendStamp, headerSize: int, hasImage: bool, imageSize: int, usb: nat -> UsbStatus)
      returns (r: CustomSendResult)
      requires Valid()
      modifies this
      ensures Valid() && curSend == NextCursor(old(curSend), config.numDevice) && curRecv == old(curRecv)
      ensures r == CustomSendSpec(config, old(curSend), stamp, headerSize, hasImage, imageSize, usb)
    {
      var dev := AdvanceSend();
      if config.maxInputNodeCount < stamp.totalImage {
        return CustomSendResult(ErrFifoInputBufferCountNotEnough, stamp, []);
      }
      if stamp.imageIndex >= stamp.totalImage {
        return CustomSendResult(ErrInvalidParam, stamp, []);
      }
      var s := stamp.(magic := MagicInference, totalSize := Wrap32(headerSize + imageSize));
      if s.totalSize > config.inputBufferSize {
        return CustomSendResult(ErrSendDataTooLarge, s, []);
      }
      var writes := [Write(dev, CustomHeader(s, headerSize))];
      var status := WriteStatus(usb(0), ErrSendDescFail);
      if status != Success {
        return CustomSendResult(status, s, writes);
      }
      if hasImage {
        writes := writes + [Write(dev, CustomPayload(imageSize))];
        status := WriteStatus(usb(1), ErrSendDataFail);
      }
      r := CustomSendResult(status, s, writes);
    }

    /** kp_customized_inference_receive: the cursor moves on whatever the read delivers. */
    method CustomizedReceive(read: ReadOutcome) returns (r: CustomReceiveResult)
      requires Valid()
      modifies this
      ensures Valid() && curRecv == NextCursor(old(curRecv), config.numDevice) && curSend == old(curSend)
      ensures r == CustomReceiveSpec(read)
    {
      var dev := AdvanceRecv();
      if read.ret < 0 {
        return CustomReceiveResult(read.ret, None);
      }
      var status := VerifyResultHeaderStamp(read.frame.stamp, 0, 0);
      r := CustomReceiveResult(status, Some(read.ret));
    }

    /** kp_dbg_receive_checkpoint_data up to its header checks: the cursor moves on whatever the read delivers. */
    method ReceiveCheckpoint(read: ReadOutcome) returns (status: int)
      requires Valid()
      modifies this
      ensures Valid() && curRecv == NextCursor(old(curRecv), config.numDevice) && curSend == old(curSend)
      ensures status == CheckpointStatus(config, read)
    {
      var dev := AdvanceRecv();
      if read.ret < 0 {
        return read.ret;
      }
      var magic := read.frame.stamp.magic;
      if magic != MagicCheckpointData && magic != MagicCheckpointDataV2 {
        return ErrInvalidCheckpointData;
      }
      if read.ret == config.stampSize {
        return DbgCheckpointEnd;
      }
      status := Success;
    }
  }
}
