/** VDI commands, status codes, and the two decisions the command loop branches on. */
module VdiProtocol {
  import opened Words

  type Hresult = u32

  const S_OK: Hresult := 0
  const VD_E_CLOSE: Hresult := 0x8077_0001
  const VD_E_TIMEOUT: Hresult := 0x8077_0003
  const VD_E_ABORT: Hresult := 0x8077_0004
  const VD_E_EOF: Hresult := 0x8077_000E

  /** The sign bit of a status code. */
  predicate Failed(hr: Hresult) {
    hr >= 0x8000_0000
  }

  const VDC_READ: u32 := 1
  const VDC_WRITE: u32 := 2
  const VDC_CLEAR_ERROR: u32 := 3
  const VDC_FLUSH: u32 := 12
  const VDC_CLOSE: u32 := 99

  const MAX_SANE_CHUNK_SIZE: u32 := 0x4000_0000

  datatype RawCommand = RawCommand(code: u32, size: u32, position: u64, buffer: Option<seq<byte>>)

  /** A command whose buffer, when there is one, holds at least the bytes it announces: what the
      VDI provider guarantees until the command is completed. */
  type Command = c: RawCommand | c.buffer.Some? ==> c.size <= |c.buffer.value|
    witness RawCommand(VDC_FLUSH, 0, 0, None)

  function Payload(c: Command): seq<byte> {
    if c.buffer.Some? then c.buffer.value[..c.size] else []
  }

  datatype CommandResult = Continue | CloseRequest | DispatchFailed

  function DispatchCommand(cmd: Option<Command>): (CommandResult, u32) {
    match cmd
    case None => (DispatchFailed, 0)
    case Some(c) => (if c.code == VDC_CLOSE then CloseRequest else Continue, c.code)
  }

  predicate ValidateWriteCommand(cmd: Option<Command>) {
    && cmd.Some?
    && cmd.value.buffer.Some?
    && cmd.value.size != 0
    && cmd.value.size <= MAX_SANE_CHUNK_SIZE
  }
}
