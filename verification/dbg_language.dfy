/** The actions the debugger command language produces (src/debugger/language.rs). */
module DbgLanguage {
  /** A u16 address. */
  type Addr = a: int | 0 <= a < 0x1_0000

  datatype ShowableThing = Address(addr: Addr) | Breakpoints

  datatype DebuggerAction =
    | WatchPoint(addr: Addr)
    | UnwatchPoint(addr: Addr)
    | SetBreakPoint(addr: Addr)
    | UnsetBreakPoint(addr: Addr)
    | Show(show: ShowableThing)
    | Step
    | Run
    | Reset
    | Echo(str: string)
    | RunToAddress(addr: Addr)
}
