/**
 * The per-call state of the message-size filter: the send check on each
 * batch, the receive check in the filter's recv-message callback, and the
 * deferral that keeps the trailing-metadata callback behind a pending
 * recv-message callback.
 *
 * Callbacks are sequential events on a `CallData` object; running a
 * closure is recorded by appending to `invoked`.
 */
module MessageSizeCall {
  import opened Base
  import opened MessageSizeConfig
  import Flags

  /** `GRPC_STATUS_RESOURCE_EXHAUSTED`. */
  const ResourceExhausted: int := 8

  datatype Direction = Sent | Received

  /**
   * The description of an error: a text, or the filter's own size error,
   * kept as its parts and rendered by `DescriptionText`.
   */
  datatype Description = Text(text: string) | LargerThanMax(direction: Direction, length: nat, limit: nat)

  /** The filter's `"%s message larger than max (%u vs. %d)"` text. */
  function DescriptionText(d: Description): string {
    match d
    case Text(t) => t
    case LargerThanMax(dir, length, limit) =>
      (if dir == Sent then "Sent" else "Received") + " message larger than max (" +
      Flags.DecimalString(length) + " vs. " + Flags.DecimalString(limit) + ")"
  }

  /** A `grpc_error_handle`: none, or a description, an optional status and child errors. */
  datatype ErrorTree = NoError | Error(desc: Description, status: Option<int>, children: seq<ErrorTree>)

  /**
   * `grpc_error_add_child(src, child)`: either side may be none; otherwise
   * `child` is appended to the children of `src`, unless it is `src` itself.
   */
  function AddChild(src: ErrorTree, child: ErrorTree): (r: ErrorTree)
    ensures src == NoError ==> r == child
    ensures child == NoError ==> r == src
  {
    if src == NoError then child
    else if child == NoError || child == src then src
    else src.(children := src.children + [child])
  }

  /** The combined error reports the child and keeps everything `src` reported. */
  lemma AddChildReportsBoth(src: ErrorTree, child: ErrorTree)
    ensures Carries(AddChild(src, child), child) && Extends(AddChild(src, child), src)
  {
  }

  /** `e` reports `c`: it is `c`, holds `c` as a child, or `c` is none. */
  predicate Carries(e: ErrorTree, c: ErrorTree) {
    c == NoError || e == c || (e.Error? && c in e.children)
  }

  /** `e` is `src` with possibly more children. */
  predicate Extends(e: ErrorTree, src: ErrorTree) {
    src == NoError ||
    (e.Error? && src.Error? && e.desc == src.desc && e.status == src.status && src.children <= e.children)
  }

  function SizeError(direction: Direction, length: nat, limit: nat): (e: ErrorTree)
    ensures e.Error? && e.status == Some(ResourceExhausted) && e.children == []
  {
    Error(LargerThanMax(direction, length, limit), Some(ResourceExhausted), [])
  }

  /** The error a received message of `length` bytes raises against `limit`, if any. */
  function RecvError(limit: int, length: nat): (e: ErrorTree)
    ensures e != NoError <==> Exceeds(limit, length)
    ensures e != NoError ==> e.status == Some(ResourceExhausted)
  {
    if Exceeds(limit, length) then SizeError(Received, length, limit) else NoError
  }

  /** The received message, if any, is over `limit`. */
  predicate Rejected(limit: int, received: Option<nat>) {
    received.Some? && Exceeds(limit, received.value)
  }

  /** The error the pending recv-message callback is run with. */
  function PassedError(limit: int, e: ErrorTree, received: Option<nat>): (r: ErrorTree)
    ensures !Rejected(limit, received) ==> r == e
    ensures Rejected(limit, received) ==> r != NoError
  {
    if Rejected(limit, received) then AddChild(e, RecvError(limit, received.value)) else e
  }

  /**
   * The error passed up with a rejected message reports the
   * RESOURCE_EXHAUSTED size error and keeps everything the incoming error
   * reported.
   */
  lemma PassedErrorReportsSizeError(limit: int, e: ErrorTree, received: Option<nat>)
    requires Rejected(limit, received)
    ensures Carries(PassedError(limit, e, received), RecvError(limit, received.value))
    ensures Extends(PassedError(limit, e, received), e)
  {
    AddChildReportsBoth(e, RecvError(limit, received.value));
  }

  /** A callback: one of the layer above, or one of this filter's own two. */
  datatype Closure = Upstream(id: nat) | FilterRecvMessageReady | FilterRecvTrailingMetadataReady

  /**
   * The parts of a transport stream op batch the filter looks at: the
   * length of the message to send, and the recv-message and
   * recv-trailing-metadata callbacks.
   */
  datatype Batch = Batch(
    sendMessage: Option<nat>,
    recvMessageReady: Option<Closure>,
    recvTrailingMetadataReady: Option<Closure>)

  datatype BatchOutcome = FinishedWithFailure(error: ErrorTree) | PassedDown(op: Batch)

  /** A closure run with an error. */
  datatype Invocation = MessageReady(closure: Closure, error: ErrorTree) | TrailingMetadataReady(closure: Closure, error: ErrorTree)

  function InjectedBatch(op: Batch): Batch {
    op.(recvMessageReady := if op.recvMessageReady.Some? then Some(FilterRecvMessageReady) else None,
        recvTrailingMetadataReady := if op.recvTrailingMetadataReady.Some? then Some(FilterRecvTrailingMetadataReady) else None)
  }

  function CountTrailing(s: seq<Invocation>): nat {
    if s == [] then 0
    else (if s[0].TrailingMetadataReady? then 1 else 0) + CountTrailing(s[1..])
  }

  lemma {:induction false} CountTrailingAppend(s: seq<Invocation>, x: Invocation)
    ensures CountTrailing(s + [x]) == CountTrailing(s) + (if x.TrailingMetadataReady? then 1 else 0)
  {
    if s == [] {
      assert [] + [x] == [x];
      assert [x][1..] == [];
    } else {
      assert (s + [x])[1..] == s[1..] + [x];
      CountTrailingAppend(s[1..], x);
    }
  }

  /** `call_data`. */
  class CallData {
    var limits: Limits
    /** The error of a message that was too large, or none. */
    var error: ErrorTree
    var nextRecvMessageReady: Option<Closure>
    var originalRecvTrailingMetadataReady: Option<Closure>
    var seenRecvTrailingMetadata: bool
    var recvTrailingMetadataError: ErrorTree
    /**
     * The filter's trailing callback has been handed back to the call
     * combiner (`GRPC_CALL_COMBINER_START`) and waits to be run again.
     */
    var resumeQueued: bool
    /** The closures this filter has run, in order. */
    var invoked: seq<Invocation>
    /** How often the transport has run the filter's trailing-metadata callback. */
    ghost var trailingFired: nat

    /**
     * A deferred trailing callback always has a pending recv-message
     * callback to wait for and a callback to resume; a queued one has a
     * callback to resume and is not also deferred; and every time the
     * transport fired the trailing callback it was either passed on or is
     * the one being held or queued.
     */
    ghost predicate Valid()
      reads this
    {
      (seenRecvTrailingMetadata ==> nextRecvMessageReady.Some? && originalRecvTrailingMetadataReady.Some?) &&
      (resumeQueued ==> originalRecvTrailingMetadataReady.Some? && !seenRecvTrailingMetadata) &&
      CountTrailing(invoked) + (if seenRecvTrailingMetadata || resumeQueued then 1 else 0) == trailingFired
    }

    /**
     * The call starts from the channel's limits and merges in the
     * per-method config when the call has one.
     */
    constructor(channelLimits: Limits, methodConfig: Option<Limits>)
      ensures Valid()
      ensures methodConfig.None? ==> limits == channelLimits
      ensures methodConfig.Some? ==>
        limits == Limits(MergeLimit(channelLimits.maxSendSize, methodConfig.value.maxSendSize),
                         MergeLimit(channelLimits.maxRecvSize, methodConfig.value.maxRecvSize))
      ensures error == NoError && nextRecvMessageReady == None && !seenRecvTrailingMetadata
      ensures originalRecvTrailingMetadataReady == None && !resumeQueued && invoked == [] && trailingFired == 0
    {
      limits := channelLimits;
      error := NoError;
      nextRecvMessageReady := None;
      originalRecvTrailingMetadataReady := None;
      seenRecvTrailingMetadata := false;
      recvTrailingMetadataError := NoError;
      resumeQueued := false;
      invoked := [];
      trailingFired := 0;
      new;
      if methodConfig.Some? {
        var m := methodConfig.value;
        if m.maxSendSize >= 0 && (m.maxSendSize < limits.maxSendSize || limits.maxSendSize < 0) {
          limits := limits.(maxSendSize := m.maxSendSize);
        }
        if m.maxRecvSize >= 0 && (m.maxRecvSize < limits.maxRecvSize || limits.maxRecvSize < 0) {
          limits := limits.(maxRecvSize := m.maxRecvSize);
        }
      }
    }

    /**
     * `message_size_start_transport_stream_op_batch`: a message over the
     * send limit fails the batch with RESOURCE_EXHAUSTED and leaves the call
     * as it was; otherwise the filter's own callbacks replace the batch's
     * recv callbacks, which are kept to be run later, and the batch goes on.
     */
    method StartBatch(op: Batch) returns (outcome: BatchOutcome)
      requires Valid()
      modifies this`nextRecvMessageReady, this`originalRecvTrailingMetadataReady
      ensures Valid()
      ensures outcome.FinishedWithFailure? <==> op.sendMessage.Some? && Exceeds(limits.maxSendSize, op.sendMessage.value)
      ensures outcome.FinishedWithFailure? ==>
        outcome.error == SizeError(Sent, op.sendMessage.value, limits.maxSendSize) &&
        nextRecvMessageReady == old(nextRecvMessageReady) &&
        originalRecvTrailingMetadataReady == old(originalRecvTrailingMetadataReady)
      ensures outcome.PassedDown? ==>
        outcome.op == InjectedBatch(op) &&
        nextRecvMessageReady == (if op.recvMessageReady.Some? then op.recvMessageReady else old(nextRecvMessageReady)) &&
        originalRecvTrailingMetadataReady ==
          (if op.recvTrailingMetadataReady.Some? then op.recvTrailingMetadataReady
           else old(originalRecvTrailingMetadataReady))
    {
      if op.sendMessage.Some? && limits.maxSendSize >= 0 && op.sendMessage.value > limits.maxSendSize {
        return FinishedWithFailure(SizeError(Sent, op.sendMessage.value, limits.maxSendSize));
      }
      var passed := op;
      if op.recvMessageReady.Some? {
        nextRecvMessageReady := op.recvMessageReady;
        passed := passed.(recvMessageReady := Some(FilterRecvMessageReady));
      }
      if op.recvTrailingMetadataReady.Some? {
        originalRecvTrailingMetadataReady := op.recvTrailingMetadataReady;
        passed := passed.(recvTrailingMetadataReady := Some(FilterRecvTrailingMetadataReady));
      }
      return PassedDown(passed);
    }

    /**
     * `recv_trailing_metadata_ready`, run by the transport. While a
     * recv-message callback is pending, the trailing callback is held back
     * with its error; otherwise the original callback runs with the call's
     * size error attached.
     */
    method RecvTrailingMetadataReady(e: ErrorTree)
      requires Valid() && originalRecvTrailingMetadataReady.Some?
      requires !seenRecvTrailingMetadata && !resumeQueued
      modifies this`trailingFired, this`seenRecvTrailingMetadata, this`recvTrailingMetadataError, this`invoked
      ensures Valid()
      ensures trailingFired == old(trailingFired) + 1
      ensures nextRecvMessageReady.Some? ==>
        seenRecvTrailingMetadata && recvTrailingMetadataError == e && invoked == old(invoked)
      ensures nextRecvMessageReady.None? ==>
        !seenRecvTrailingMetadata &&
        invoked == old(invoked) + [TrailingMetadataReady(originalRecvTrailingMetadataReady.value, AddChild(e, error))] &&
        recvTrailingMetadataError == old(recvTrailingMetadataError)
    {
      trailingFired := trailingFired + 1;
      ContinueRecvTrailingMetadataReady(e);
    }

    /**
     * The filter's trailing callback run again by the call combiner, after
     * `recv_message_ready` queued it. It makes the same check as when the
     * transport runs it: if a newer recv-message callback is pending by
     * now, the trailing callback is held back once more; otherwise the
     * original callback runs with the stored error and the call's size
     * error attached.
     */
    method ResumeRecvTrailingMetadataReady()
      requires Valid() && resumeQueued
      modifies this`resumeQueued, this`seenRecvTrailingMetadata, this`recvTrailingMetadataError, this`invoked
      ensures Valid() && !resumeQueued
      ensures recvTrailingMetadataError == old(recvTrailingMetadataError)
      ensures nextRecvMessageReady.Some? ==> seenRecvTrailingMetadata && invoked == old(invoked)
      ensures nextRecvMessageReady.None? ==>
        !seenRecvTrailingMetadata &&
        invoked == old(invoked) +
          [TrailingMetadataReady(originalRecvTrailingMetadataReady.value, AddChild(recvTrailingMetadataError, error))]
    {
      resumeQueued := false;
      ContinueRecvTrailingMetadataReady(recvTrailingMetadataError);
    }

    /** The body of `recv_trailing_metadata_ready`, whoever runs it. */
    method ContinueRecvTrailingMetadataReady(e: ErrorTree)
      requires originalRecvTrailingMetadataReady.Some? && !seenRecvTrailingMetadata
      modifies this`seenRecvTrailingMetadata, this`recvTrailingMetadataError, this`invoked
      ensures nextRecvMessageReady.Some? ==>
        seenRecvTrailingMetadata && recvTrailingMetadataError == e && invoked == old(invoked)
      ensures nextRecvMessageReady.None? ==>
        !seenRecvTrailingMetadata && recvTrailingMetadataError == old(recvTrailingMetadataError) &&
        invoked == old(invoked) + [TrailingMetadataReady(originalRecvTrailingMetadataReady.value, AddChild(e, error))] &&
        CountTrailing(invoked) == CountTrailing(old(invoked)) + 1
    {
      if nextRecvMessageReady.Some? {
        seenRecvTrailingMetadata := true;
        recvTrailingMetadataError := e;
        return;
      }
      RunOriginalRecvTrailingMetadataReady(e);
    }

    /**
     * The rest of `recv_trailing_metadata_ready` once no recv-message
     * callback is pending: the original callback runs with the call's size
     * error attached as a child.
     */
    method RunOriginalRecvTrailingMetadataReady(e: ErrorTree)
      requires originalRecvTrailingMetadataReady.Some?
      modifies this`invoked
      ensures invoked == old(invoked) + [TrailingMetadataReady(originalRecvTrailingMetadataReady.value, AddChild(e, error))]
      ensures CountTrailing(invoked) == CountTrailing(old(invoked)) + 1
    {
      var combined := AddChild(e, error);
      CountTrailingAppend(invoked, TrailingMetadataReady(originalRecvTrailingMetadataReady.value, combined));
      invoked := invoked + [TrailingMetadataReady(originalRecvTrailingMetadataReady.value, combined)];
    }

    /**
     * `recv_message_ready`, run by the transport with the received message
     * (`received` is its length, or none for a null message). A message over
     * the receive limit adds a RESOURCE_EXHAUSTED child to the error and
     * becomes the call's error. The pending callback is cleared and run; a
     * trailing callback held back meanwhile is handed to the call combiner,
     * to run after this one.
     */
    method RecvMessageReady(e: ErrorTree, received: Option<nat>)
      requires Valid() && nextRecvMessageReady.Some?
      modifies this`error, this`nextRecvMessageReady, this`seenRecvTrailingMetadata, this`resumeQueued, this`invoked
      ensures Valid()
      ensures nextRecvMessageReady == None && !seenRecvTrailingMetadata
      ensures resumeQueued == (old(resumeQueued) || old(seenRecvTrailingMetadata))
      ensures Rejected(limits.maxRecvSize, received) ==> error == PassedError(limits.maxRecvSize, e, received)
      ensures !Rejected(limits.maxRecvSize, received) ==> error == old(error)
      ensures invoked == old(invoked) + [MessageReady(old(nextRecvMessageReady).value, PassedError(limits.maxRecvSize, e, received))]
    {
      var passed := CheckReceivedMessage(e, received);
      var closure := nextRecvMessageReady.value;
      nextRecvMessageReady := None;
      QueueDeferredTrailing();
      RunMessageReady(closure, passed);
    }

    /** Running the upper layer's recv-message callback adds no trailing callback. */
    method RunMessageReady(closure: Closure, passed: ErrorTree)
      modifies this`invoked
      ensures invoked == old(invoked) + [MessageReady(closure, passed)]
      ensures CountTrailing(invoked) == CountTrailing(old(invoked))
    {
      CountTrailingAppend(invoked, MessageReady(closure, passed));
      invoked := invoked + [MessageReady(closure, passed)];
    }

    /**
     * The hand-over in `recv_message_ready`: a trailing callback held back
     * is no longer deferred but queued on the call combiner.
     */
    method QueueDeferredTrailing()
      modifies this`seenRecvTrailingMetadata, this`resumeQueued
      ensures !seenRecvTrailingMetadata
      ensures resumeQueued == (old(resumeQueued) || old(seenRecvTrailingMetadata))
      ensures (seenRecvTrailingMetadata || resumeQueued) == (old(seenRecvTrailingMetadata) || old(resumeQueued))
    {
      if seenRecvTrailingMetadata {
        seenRecvTrailingMetadata := false;
        resumeQueued := true;
      }
    }

    /**
     * The size check of `recv_message_ready`: a message over the receive
     * limit gets a RESOURCE_EXHAUSTED child added to the incoming error, and
     * that error becomes the call's error.
     */
    method CheckReceivedMessage(e: ErrorTree, received: Option<nat>) returns (passed: ErrorTree)
      modifies this`error
      ensures passed == PassedError(limits.maxRecvSize, e, received)
      ensures Rejected(limits.maxRecvSize, received) ==> error == passed
      ensures !Rejected(limits.maxRecvSize, received) ==> error == old(error)
    {
      passed := e;
      if received.Some? && limits.maxRecvSize >= 0 && received.value > limits.maxRecvSize {
        passed := AddChild(e, RecvError(limits.maxRecvSize, received.value));
        error := passed;
      }
    }
  }

  /**
   * The race the deferral exists for: a batch asks for a message and the
   * trailing metadata, and the transport signals the trailing metadata
   * first. The upper layer still sees the message callback first and the
   * trailing callback once, after it, carrying the message's size error.
   */
  method TrailingBeforeMessage(channelLimits: Limits, length: nat, trailingError: ErrorTree)
    returns (invoked: seq<Invocation>)
    ensures var m := RecvError(channelLimits.maxRecvSize, length);
      invoked == [MessageReady(Upstream(0), m), TrailingMetadataReady(Upstream(1), AddChild(trailingError, m))]
    ensures Carries(invoked[1].error, invoked[0].error)
  {
    var call := new CallData(channelLimits, None);
    var outcome := call.StartBatch(Batch(None, Some(Upstream(0)), Some(Upstream(1))));
    call.RecvTrailingMetadataReady(trailingError);
    call.RecvMessageReady(NoError, Some(length));
    call.ResumeRecvTrailingMetadataReady();
    invoked := call.invoked;
    AddChildReportsBoth(trailingError, RecvError(channelLimits.maxRecvSize, length));
  }

  /**
   * A newer recv-message batch arrives before the call combiner runs the
   * queued trailing callback: the callback sees it pending and is held back
   * again, and reaches the upper layer once, after both message callbacks
   * (the second message is null), still carrying the first message's size
   * error.
   */
  method NewerMessageDefersAgain(channelLimits: Limits, length: nat, trailingError: ErrorTree)
    returns (invoked: seq<Invocation>)
    ensures var m := RecvError(channelLimits.maxRecvSize, length);
      invoked == [MessageReady(Upstream(0), m), MessageReady(Upstream(2), NoError),
                  TrailingMetadataReady(Upstream(1), AddChild(trailingError, m))]
  {
    var call := new CallData(channelLimits, None);
    var first := call.StartBatch(Batch(None, Some(Upstream(0)), Some(Upstream(1))));
    call.RecvTrailingMetadataReady(trailingError);
    call.RecvMessageReady(NoError, Some(length));
    var second := call.StartBatch(Batch(None, Some(Upstream(2)), None));
    call.ResumeRecvTrailingMetadataReady();
    call.RecvMessageReady(NoError, None);
    call.ResumeRecvTrailingMetadataReady();
    invoked := call.invoked;
  }

  /** The same batch when the message arrives first. */
  method MessageBeforeTrailing(channelLimits: Limits, length: nat, trailingError: ErrorTree)
    returns (invoked: seq<Invocation>)
    ensures var m := RecvError(channelLimits.maxRecvSize, length);
      invoked == [MessageReady(Upstream(0), m), TrailingMetadataReady(Upstream(1), AddChild(trailingError, m))]
  {
    var call := new CallData(channelLimits, None);
    var outcome := call.StartBatch(Batch(None, Some(Upstream(0)), Some(Upstream(1))));
    call.RecvMessageReady(NoError, Some(length));
    call.RecvTrailingMetadataReady(trailingError);
    invoked := call.invoked;
  }

  /** In a valid call the upper layer never sees more trailing callbacks than the transport fired. */
  lemma TrailingAtMostFired(call: CallData)
    requires call.Valid()
    ensures CountTrailing(call.invoked) <= call.trailingFired
    ensures !call.seenRecvTrailingMetadata && !call.resumeQueued ==> CountTrailing(call.invoked) == call.trailingFired
  {
  }
}
