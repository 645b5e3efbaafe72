/** `oggRecorder`: writes and close under one mutex, closed at most once. */
module Recording {
  /** A call made to the underlying OGG writer. */
  datatype WriterCall = WriteCall | CloseCall

  datatype Recorder = Recorder(closed: bool, calls: seq<WriterCall>)

  const NEW_RECORDER := Recorder(false, [])

  function Written(r: Recorder, hasPacket: bool): Recorder {
    if r.closed || !hasPacket then r else r.(calls := r.calls + [WriteCall])
  }

  function ClosedOnce(r: Recorder): Recorder {
    if r.closed then r else Recorder(true, r.calls + [CloseCall])
  }

  /** The writer sees writes, then at most one close, which is last and made exactly when the recorder is closed. */
  predicate Disciplined(r: Recorder) {
    var writes := if r.closed then |r.calls| - 1 else |r.calls|;
    && 0 <= writes
    && (forall i :: 0 <= i < writes ==> r.calls[i] == WriteCall)
    && (r.closed ==> r.calls[writes] == CloseCall)
  }

  lemma RecorderDiscipline(r: Recorder, hasPacket: bool)
    requires Disciplined(r)
    ensures Disciplined(Written(r, hasPacket))
    ensures Disciplined(ClosedOnce(r)) && ClosedOnce(r).closed
    ensures r.closed ==> Written(r, hasPacket) == r && ClosedOnce(r) == r
    ensures !r.closed && hasPacket ==> Written(r, hasPacket).calls == r.calls + [WriteCall]
    ensures !r.closed ==> ClosedOnce(r).calls == r.calls + [CloseCall]
  {
  }

  /** An open recorder passes on exactly the packets it is given; closing passes on one close; a closed one nothing. */
  lemma CallsExactly(r: Recorder, hasPacket: bool)
    ensures Written(r, hasPacket).closed == r.closed
    ensures Written(r, hasPacket).calls == r.calls + if !r.closed && hasPacket then [WriteCall] else []
    ensures ClosedOnce(r).closed && ClosedOnce(r).calls == r.calls + if r.closed then [] else [CloseCall]
  {
  }

  datatype WriteError = NoError | ErrClosed | ErrNoPacket | WriterFailed

  class OggRecorder {
    var closed: bool
    ghost var calls: seq<WriterCall>

    ghost function State(): Recorder
      reads this
    {
      Recorder(closed, calls)
    }

    constructor ()
      ensures State() == NEW_RECORDER
    {
      closed, calls := false, [];
    }

    /** `WriteRTP`; `writerOk` is what the OGG writer answers. */
    method WriteRTP(hasPacket: bool, writerOk: bool) returns (error: WriteError)
      requires Disciplined(State())
      modifies this
      ensures Disciplined(State())
      ensures State() == Written(old(State()), hasPacket)
      ensures closed == old(closed)
      ensures !old(closed) && hasPacket ==> calls == old(calls) + [WriteCall]
      ensures old(closed) || !hasPacket ==> calls == old(calls)
      ensures error == if old(closed) then ErrClosed else if !hasPacket then ErrNoPacket
                       else if writerOk then NoError else WriterFailed
    {
      RecorderDiscipline(State(), hasPacket);
      if closed {
        return ErrClosed;
      }
      if !hasPacket {
        return ErrNoPacket;
      }
      calls := calls + [WriteCall];
      error := if writerOk then NoError else WriterFailed;
    }

    /** `Close`; a second call reports no error, whatever the first one did. */
    method Close(writerOk: bool) returns (ok: bool)
      requires Disciplined(State())
      modifies this
      ensures Disciplined(State()) && closed
      ensures State() == ClosedOnce(old(State()))
      ensures !old(closed) ==> calls == old(calls) + [CloseCall]
      ensures old(closed) ==> calls == old(calls)
      ensures ok == (old(closed) || writerOk)
    {
      RecorderDiscipline(State(), true);
      if closed {
        return true;
      }
      closed := true;
      calls := calls + [CloseCall];
      ok := writerOk;
    }
  }
}
