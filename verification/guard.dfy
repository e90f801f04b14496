/** Transfer bookkeeping shared by the blocking and the asynchronous client (src/client/guard.rs). */
module Guards {
  /** The two flags every guard shares with its client. */
  class Flags {
    var active: bool
    var usable: bool

    constructor ()
      ensures !active && usable
    {
      active, usable := false, true;
    }
  }

  /** Raised by `start_transfer`, owned by one stream, lowered when that stream is gone. */
  class TransferGuard {
    const flags: Flags

    constructor (flags: Flags)
      ensures this.flags == flags
    {
      this.flags := flags;
    }

    method Invalidate()
      modifies flags
      ensures !flags.usable && flags.active == old(flags.active)
    {
      flags.usable := false;
    }

    method Drop()
      modifies flags
      ensures !flags.active && flags.usable == old(flags.usable)
    {
      flags.active := false;
    }
  }
}
