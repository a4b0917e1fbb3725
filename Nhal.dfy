/**
 * Types at the boundary between the board-support layer and the NHAL pin
 * driver library: result codes, physical pin identities, electrical
 * configurations and the runtime pin context. The driver library itself
 * (nhal_pin.h, nhal_common.h and the STM32F103 implementation headers) is
 * not part of this model; only the shapes the board layer fills in are.
 */
module Nhal {

  /** A nullable reference: `None` stands for the C `NULL`. */
  datatype Option<T> = None | Some(value: T)

  /** `nhal_result_t`: success, the hardware-failure code, or any other driver error. */
  datatype NhalResult = NhalOk | NhalErrHwFailure | NhalErr(code: nat)

  /** The GPIO ports this model names (ports A to E). */
  datatype GpioPort = PortA | PortB | PortC | PortD | PortE

  /** A pin within a GPIO port (each port has 16). */
  type PinNumber = n: nat | n < 16

  /** `struct nhal_pin_id`: the physical location of a pin. */
  datatype PinId = PinId(port: GpioPort, pin: PinNumber)

  datatype Direction = Input | Output

  datatype PullMode = PullNone | PullUp | PullDown

  /** `struct nhal_pin_impl_config` of the STM32F103 driver: a single reserved word. */
  datatype ImplConfig = ImplConfig(reserved: int)

  /**
   * `struct nhal_pin_config`. The `impl_config` pointer is the index of the
   * implementation-config slot it points at, or `None` for `NULL`.
   */
  datatype PinConfig = PinConfig(direction: Direction, pullMode: PullMode, implConfig: Option<nat>)

  /** Interrupt trigger mode; only "none" is ever set by the board layer. */
  datatype Trigger = TriggerNone | TriggerOther(code: nat)

  /**
   * `struct nhal_pin_context`. `pinId` is the index of the identity-table
   * slot the context refers to; callback and user data are opaque handles.
   */
  datatype PinContext = PinContext(
    pinId: Option<nat>,
    callback: Option<nat>,
    userData: Option<nat>,
    trigger: Trigger,
    interruptConfigured: bool,
    interruptEnabled: bool)

  /** Life cycle of one resource: declared, bound to its pin by the driver, configured. */
  datatype Stage = Declared | ContextBound | Configured

  function Rank(s: Stage): (n: nat)
    ensures n <= 2
    ensures s == Declared <==> n == 0
    ensures s == Configured <==> n == 2
  {
    match s
    case Declared => 0
    case ContextBound => 1
    case Configured => 2
  }

  /** Stage after a successful `nhal_pin_init`: a declared context becomes bound; a later stage is kept. */
  function AfterPinInit(s: Stage): (t: Stage)
    ensures Rank(s) <= Rank(t)
    ensures Rank(t) >= 1
  {
    if s == Declared then ContextBound else s
  }

  /** Stage after a successful `nhal_pin_set_config`. */
  function AfterSetConfig(s: Stage): (t: Stage)
    ensures Rank(s) <= Rank(t)
  {
    Configured
  }

  /** One call into the pin driver, by table index. */
  datatype DriverCall = InitCall(index: nat) | ConfigCall(index: nat)
}
