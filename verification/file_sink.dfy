/** FileSink: the write-combining buffer, in place, over an open file. */
module FileSinks {
  import opened Words
  import opened SinkModel

  /** The operating system's side of an open file. */
  class OsFile {
    const outcomes: Os
    var log: seq<OsWrite>

    constructor (outcomes: Os)
      ensures this.outcomes == outcomes && log == []
    {
      this.outcomes := outcomes;
      log := [];
    }

    method WriteFile(cause: Cause, block: seq<byte>, asked: nat) returns (ok: bool, written: nat)
      modifies this
      ensures log == old(log) + [OsWrite(cause, block, asked, outcomes(|old(log)|))]
      ensures ok == log[|log| - 1].outcome.ok && written == log[|log| - 1].Landed()
    {
      var call := OsWrite(cause, block, asked, outcomes(|log|));
      log := log + [call];
      ok, written := call.outcome.ok, call.Landed();
    }
  }

  class FileSink {
    const capacity: nat
    const file: OsFile
    const handle: bool
    const writeBuffer: array?<byte>
    var bufferedBytes: nat

    ghost predicate Valid()
      reads this, file, writeBuffer
    {
      && (writeBuffer != null ==> writeBuffer.Length == capacity)
      && (writeBuffer == null ==> bufferedBytes == 0)
      && bufferedBytes <= capacity
      && Model().Valid()
    }

    /** The sink as a value. */
    ghost function Model(): Sink
      reads this, file, writeBuffer
    {
      Sink(handle, writeBuffer != null, capacity,
        if writeBuffer != null && bufferedBytes <= writeBuffer.Length then writeBuffer[..bufferedBytes] else [],
        file.log)
    }

    /** `pathOk`, `creates` and `allocates` are what the path conversion, CreateFileW and the
        aligned allocation answer. */
    constructor (capacity: nat, pathOk: bool, creates: bool, allocates: bool, outcomes: Os)
      requires 0 < capacity < TWO_32
      ensures Valid() && fresh(file) && (writeBuffer != null ==> fresh(writeBuffer))
      ensures file.outcomes == outcomes
      ensures Model() == Sink(pathOk && creates, pathOk && allocates, capacity, [], [])
    {
      this.capacity := capacity;
      bufferedBytes := 0;
      file := new OsFile(outcomes);
      if pathOk && allocates {
        writeBuffer := new byte[capacity];
      } else {
        writeBuffer := null;
      }
      handle := pathOk && creates;
    }

    method FlushBuffer(cause: Cause)
      requires Valid() && cause != Direct
      modifies this, file
      ensures Valid() && Model() == Drained(old(Model()), file.outcomes, cause)
    {
      if bufferedBytes == 0 {
        return;
      }
      StaysValid(Model(), file.outcomes, []);
      var _, _ := file.WriteFile(cause, writeBuffer[..bufferedBytes], bufferedBytes);
      bufferedBytes := 0;
    }

    /** The memcpy behind the buffered bytes. */
    method Append(data: seq<byte>)
      requires Valid() && handle && writeBuffer != null && bufferedBytes + |data| <= capacity
      modifies this, writeBuffer
      ensures Valid() && Model() == old(Model()).(buffered := old(Model()).buffered + data)
    {
      forall k | 0 <= k < |data| {
        writeBuffer[bufferedBytes + k] := data[k];
      }
      assert writeBuffer[..bufferedBytes + |data|] == writeBuffer[..bufferedBytes] + data;
      bufferedBytes := bufferedBytes + |data|;
    }

    method Write(data: seq<byte>) returns (ok: bool)
      requires Valid()
      modifies this, file, writeBuffer
      ensures Valid() && (Model(), ok) == Written(old(Model()), file.outcomes, data)
    {
      if !handle || writeBuffer == null {
        return false;
      }
      StaysValid(Model(), file.outcomes, data);
      if |data| >= capacity {
        if bufferedBytes > 0 {
          FlushBuffer(Drain);
        }
        var sent, written := file.WriteFile(Direct, data[..Dword(|data|)], |data|);
        if !sent {
          return false;
        }
        return written == |data|;
      }
      if bufferedBytes + |data| > capacity {
        FlushBuffer(Drain);
      }
      Append(data);
      return true;
    }

    predicate IsOpen() {
      handle
    }

    method Flush()
      requires Valid()
      modifies this, file
      ensures Valid() && Model() == Flushed(old(Model()), file.outcomes)
    {
      FlushBuffer(SinkModel.Flush);
    }

    /** The destructor: buffered bytes still go out, unsynchronised. */
    method Destroy()
      requires Valid()
      modifies this, file
      ensures Valid() && Model() == Flushed(old(Model()), file.outcomes)
    {
      FlushBuffer(SinkModel.Flush);
    }
  }
}
