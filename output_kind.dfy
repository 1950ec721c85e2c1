/**
 * The compiler's output kinds and the helpers on them. OutputKind is an
 * integer-backed enumeration: any integer can be cast to it, so values outside
 * the six declared members exist and the helpers say what they do with them.
 */
module OutputKinds {

  newtype OutputKind = int

  const ConsoleApplication: OutputKind := 0
  const WindowsApplication: OutputKind := 1
  const DynamicallyLinkedLibrary: OutputKind := 2
  const NetModule: OutputKind := 3
  const WindowsRuntimeMetadata: OutputKind := 4
  const WindowsRuntimeApplication: OutputKind := 5

  /** The six declared members. */
  const Declared: set<OutputKind> :=
    {ConsoleApplication, WindowsApplication, DynamicallyLinkedLibrary, NetModule, WindowsRuntimeMetadata, WindowsRuntimeApplication}

  /** The range check between the first and the last member. */
  function IsValid(value: OutputKind): (r: bool)
    ensures r <==> value in Declared
  {
    ConsoleApplication <= value <= WindowsRuntimeApplication
  }

  /** The kinds that produce an executable image. */
  function IsApplication(kind: OutputKind): (r: bool)
    ensures r ==> IsValid(kind)
    ensures r <==> kind in {ConsoleApplication, WindowsApplication, WindowsRuntimeApplication}
  {
    match kind
    case 0 => true
    case 1 => true
    case 5 => true
    case 2 => false
    case 3 => false
    case 4 => false
    case _ => false
  }

  function IsNetModule(kind: OutputKind): (r: bool)
    ensures r ==> IsValid(kind) && !IsApplication(kind)
  {
    kind == NetModule
  }

  /** Windows Runtime metadata only: a Windows Runtime application is an application, not this. */
  function IsWindowsRuntime(kind: OutputKind): (r: bool)
    ensures r ==> IsValid(kind) && !IsApplication(kind) && !IsNetModule(kind)
  {
    kind == WindowsRuntimeMetadata
  }

  /**
   * The file extension of the output: the extension alone tells which of the
   * three predicates holds, and an undeclared value gets the library's.
   */
  function GetDefaultExtension(kind: OutputKind): (r: string)
    ensures r == ".exe" <==> IsApplication(kind)
    ensures r == ".netmodule" <==> IsNetModule(kind)
    ensures r == ".winmdobj" <==> IsWindowsRuntime(kind)
    ensures r == ".dll" <==> !IsApplication(kind) && !IsNetModule(kind) && !IsWindowsRuntime(kind)
    ensures !IsValid(kind) ==> r == ".dll"
  {
    match kind
    case 0 => ".exe"
    case 1 => ".exe"
    case 5 => ".exe"
    case 2 => ".dll"
    case 3 => ".netmodule"
    case 4 => ".winmdobj"
    case _ => ".dll"
  }
}
