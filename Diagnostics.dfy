/** The two diagnostic channels between the VM and the host
    (sky/engine/core/script/dart_init.cc): capture of stdout and stderr into
    the VM's service streams, switched by stream id, and the embedder's
    timeline start/stop callbacks. */
module Diagnostics {
  import opened Common

  const StdoutStreamId := "Stdout"
  const StderrStreamId := "Stderr"

  /** The capture switches of the VM's I/O library, which
      `ServiceStreamListenCallback` and `ServiceStreamCancelCallback` set. */
  class StdioCapture {
    var captureStdout: bool
    var captureStderr: bool

    constructor ()
      ensures !captureStdout && !captureStderr
    {
      captureStdout := false;
      captureStderr := false;
    }

    /** `ServiceStreamListenCallback`: a known stream id turns on capture of
        that stream, and only that one, and is accepted; any other id is
        refused and changes nothing. */
    method ServiceStreamListen(streamId: string) returns (accepted: bool)
      modifies this
      ensures accepted <==> streamId == StdoutStreamId || streamId == StderrStreamId
      ensures captureStdout == (streamId == StdoutStreamId || old(captureStdout))
      ensures captureStderr == (streamId == StderrStreamId || old(captureStderr))
    {
      if streamId == StdoutStreamId {
        captureStdout := true;
        return true;
      } else if streamId == StderrStreamId {
        captureStderr := true;
        return true;
      }
      return false;
    }

    /** `ServiceStreamCancelCallback`: a known stream id turns off capture of
        that stream only; any other id changes nothing. */
    method ServiceStreamCancel(streamId: string)
      modifies this
      ensures captureStdout == (streamId != StdoutStreamId && old(captureStdout))
      ensures captureStderr == (streamId != StderrStreamId && old(captureStderr))
    {
      if streamId == StdoutStreamId {
        captureStdout := false;
      } else if streamId == StderrStreamId {
        captureStderr := false;
      }
    }
  }

  /** An embedder-supplied tracing callback, identified by its address; the
      source calls both callbacks of a set pair unconditionally, so neither
      is null. */
  type CallbackId = c: nat | c > 0 witness 1

  datatype TracingCallbacks = TracingCallbacks(start: CallbackId, stop: CallbackId)

  /** The process-wide slot `g_tracing_callbacks`, empty until the host sets it. */
  class TracingBridge {
    var callbacks: Option<TracingCallbacks>

    constructor ()
      ensures callbacks.None?
    {
      callbacks := None;
    }

    /** `SetEmbedderTracingCallbacks`: replaces whatever pair the slot held. */
    method SetEmbedderTracingCallbacks(pair: Option<TracingCallbacks>)
      modifies this
      ensures callbacks == pair
    {
      callbacks := pair;
    }

    /** `EmbedderTimelineStartRecording`: returns the callback it invokes,
        the start callback of the pair, or none when the slot is empty. */
    method EmbedderTimelineStartRecording() returns (invoked: Option<CallbackId>)
      ensures invoked.Some? <==> callbacks.Some?
      ensures callbacks.Some? ==> invoked == Some(callbacks.value.start)
    {
      if callbacks.None? {
        return None;
      }
      invoked := Some(callbacks.value.start);
    }

    /** `EmbedderTimelineStopRecording`: returns the callback it invokes,
        the stop callback of the pair, or none when the slot is empty. */
    method EmbedderTimelineStopRecording() returns (invoked: Option<CallbackId>)
      ensures invoked.Some? <==> callbacks.Some?
      ensures callbacks.Some? ==> invoked == Some(callbacks.value.stop)
    {
      if callbacks.None? {
        return None;
      }
      invoked := Some(callbacks.value.stop);
    }
  }
}
