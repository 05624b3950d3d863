/** Read-side flow control of a connection (flow_control.py): the calls made on the transport
    and the flag that mirrors them. */
module Flow {

  const HIGH_WATER_LIMIT: nat := 65536

  datatype Call = PauseRead | ResumeRead

  /** `calls` is the history of calls on the transport. */
  datatype Reads = Reads(paused: bool, calls: seq<Call>)

  const READING := Reads(false, [])

  function Pause(r: Reads): Reads {
    if r.paused then r else Reads(true, r.calls + [PauseRead])
  }

  function Resume(r: Reads): Reads {
    if r.paused then Reads(false, r.calls + [ResumeRead]) else r
  }

  /** Calls alternate, starting with a pause, and the flag says which came last. */
  predicate Mirrors(r: Reads) {
    && (forall i :: 0 <= i < |r.calls| ==> (r.calls[i] == PauseRead <==> i % 2 == 0))
    && (r.paused <==> |r.calls| % 2 == 1)
  }

  lemma StillMirrors(r: Reads)
    requires Mirrors(r)
    ensures Mirrors(Pause(r)) && Mirrors(Resume(r))
    ensures Pause(r).paused && !Resume(r).paused
  {
  }

  /** The asyncio transport, as far as the protocols use it. `written` and `calls` record the calls made. */
  class Transport {
    var closing: bool
    var written: string
    var calls: seq<Call>

    constructor ()
      ensures !closing && written == "" && calls == []
    {
      closing, written, calls := false, "", [];
    }

    method Write(data: string)
      modifies this`written
      ensures written == old(written) + data
    {
      written := written + data;
    }

    method Close()
      modifies this`closing
      ensures closing
    {
      closing := true;
    }
  }

  class FlowControl {
    const transport: Transport
    var readPaused: bool
    var writePaused: bool
    var isWritable: bool  // the event that `drain` waits for

    /** The writable event is set exactly while writing is not paused. */
    predicate Valid()
      reads this, transport`calls
    {
      Mirrors(State()) && (isWritable <==> !writePaused)
    }

    function State(): Reads
      reads this, transport`calls
    {
      Reads(readPaused, transport.calls)
    }

    constructor (transport: Transport)
      requires transport.calls == []
      ensures this.transport == transport && Valid() && State() == READING
    {
      this.transport := transport;
      readPaused, writePaused, isWritable := false, false, true;
    }

    method PauseReading()
      requires Valid()
      modifies this`readPaused, transport`calls
      ensures Valid() && State() == Pause(old(State()))
    {
      if !readPaused {
        readPaused := true;
        transport.calls := transport.calls + [PauseRead];
      }
    }

    method ResumeReading()
      requires Valid()
      modifies this`readPaused, transport`calls
      ensures Valid() && State() == Resume(old(State()))
    {
      if readPaused {
        readPaused := false;
        transport.calls := transport.calls + [ResumeRead];
      }
    }

    method PauseWriting()
      requires Valid()
      modifies this`writePaused, this`isWritable
      ensures Valid() && writePaused && !isWritable && State() == old(State())
    {
      if !writePaused {
        writePaused := true;
        isWritable := false;
      }
    }

    method ResumeWriting()
      requires Valid()
      modifies this`writePaused, this`isWritable
      ensures Valid() && !writePaused && isWritable && State() == old(State())
    {
      if writePaused {
        writePaused := false;
        isWritable := true;
      }
    }
  }
}
