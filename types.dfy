/**
 Shared vocabulary of the pairing agent model: configuration constants, the
 handles of the main loop's timer sources, the effects the agent has on the
 outside world (bus calls, timer calls, loop shutdown) and the replies an RPC
 handler sends back.
 */
module AgentTypes {

  datatype Option<+T> = None | Some(value: T)

  /** A D-Bus object path, such as "/org/bluez/hci0/dev_00_11_22_33_44_55". */
  type Path = string

  /** The main loop's timer source ids; they are never 0, so a held id is always truthy. */
  type Handle = n: int | n > 0 witness 1

  /** D-Bus signature letters `u` and `q`. */
  newtype UInt32 = n: int | 0 <= n < 0x1_0000_0000
  newtype UInt16 = n: int | 0 <= n < 0x1_0000

  /** Seconds the pairing window stays open after a press. */
  const CONNECTION_TIMEOUT: int := 60

  /** 0: a request is allowed only while the button is held; 1: during the window. */
  const BUTTON_MODE: int := 1

  const REJECTED_ERROR: string := "org.bluez.Error.Rejected"
  const REJECTION_MESSAGE: string := "Pairing rejected by user"
  const NO_REPLY_ERROR: string := "org.freedesktop.DBus.Error.NoReply"

  /** What the agent asks of the outside world, in the order it asks. */
  datatype Effect =
    | SetTrusted(device: Path)           // Device1.Trusted := True
    | DevConnect(device: Path)           // Device1.Connect()
    | CancelPairing(device: Path)        // Device1.CancelPairing()
    | PairRequest(device: Path)          // Device1.Pair(...) with the one-shot callbacks
    | RequestDefaultAgent                // AgentManager1.RequestDefaultAgent(path)
    | SourceRemove(h: Handle)            // GObject.source_remove(h)
    | TimeoutAdd(h: Handle, seconds: int) // GObject.timeout_add_seconds, returning h
    | Quit                               // mainloop.quit()

  /** The answer an agent method sends back over the bus. */
  datatype Reply =
    | Done                               // an empty method return
    | PinCode(pin: string)
    | Passkey(passkey: UInt32)
    | Rejected(name: string, message: string)  // the error reply org.bluez.Error.Rejected

  /** What the world supplies while one call is served: the GPIO level and the operator's answers. */
  datatype Inputs = Inputs(buttonHigh: bool, typedPin: string, typedPasskey: UInt32)
}
