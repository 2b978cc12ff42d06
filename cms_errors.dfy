/**
 * The control plane's typed errors: nine kinds, a message, an operation,
 * an optional cause, and a component and a context map that are attached
 * to an error object after it is made.
 */
module CmsErrors {
  import opened Wrappers
  import opened Text

  datatype ErrorType = Validation | Http | Plugin | VM | Firecracker | Network | FileSystem | Timeout | Internal

  /** The string value of each kind. */
  function TypeName(t: ErrorType): string
  {
    match t
    case Validation => "validation"
    case Http => "http"
    case Plugin => "plugin"
    case VM => "vm"
    case Firecracker => "firecracker"
    case Network => "network"
    case FileSystem => "filesystem"
    case Timeout => "timeout"
    case Internal => "internal"
  }

  /** No two kinds share a name, so the "[kind]" tag of a message identifies the kind. */
  lemma TypeNamesDistinct(s: ErrorType, t: ErrorType)
    requires TypeName(s) == TypeName(t)
    ensures s == t
  {
  }

  /** A Go `error`: a `*CMSError`, or any other error with its `Error()` text. */
  datatype ErrorRef = Foreign(text: string) | Cms(err: CMSError)

  /** How deep the cause chain under an error reaches; a new error is one deeper than its cause. */
  function CauseDepth(r: ErrorRef): nat
  {
    if r.Cms? then r.err.depth + 1 else 0
  }

  /** A cause chain that ends: every error that wraps another is deeper than it. */
  predicate WellFounded(r: ErrorRef)
    decreases CauseDepth(r)
  {
    r.Cms? ==> r.err.cause.None? || (CauseDepth(r.err.cause.value) <= r.err.depth && WellFounded(r.err.cause.value))
  }

  /** `Error()` of any error. */
  function Render(r: ErrorRef): (s: string)
    requires WellFounded(r)
    decreases CauseDepth(r)
  {
    match r
    case Foreign(text) => text
    case Cms(e) =>
      var head := "[" + TypeName(e.ty) + "] " + e.operation + ": " + e.message;
      if e.cause.None? then head else head + " (caused by: " + Render(e.cause.value) + ")"
  }

  /**
   * `Error()` of a `*CMSError` begins with "[kind] operation: message", and
   * is exactly that when there is no cause; otherwise it ends with the
   * cause's own text in parentheses.
   */
  lemma RenderShape(e: CMSError)
    requires WellFounded(Cms(e))
    ensures HasPrefix(Render(Cms(e)), e.Head())
    ensures Render(Cms(e)) == e.Head() <==> e.cause.None?
    ensures e.cause.Some? ==> HasSuffix(Render(Cms(e)), " (caused by: " + Render(e.cause.value) + ")")
  {
    var s := Render(Cms(e));
    var h := e.Head();
    assert s[..|h|] == h;
    if e.cause.Some? {
      var tail := " (caused by: " + Render(e.cause.value) + ")";
      assert s == h + tail;
      assert s[|s| - |tail|..] == tail;
    }
  }

  /** `CMSError`. The kind, message, operation and cause are fixed when it is made; the component and context are set later. */
  class CMSError {
    const ty: ErrorType
    const message: string
    const operation: string
    const cause: Option<ErrorRef>
    const depth: nat
    var component: string
    /** The context map; `None` is a nil map. Values are kept as their text. */
    var context: Option<map<string, string>>

    function Head(): string
    {
      "[" + TypeName(ty) + "] " + operation + ": " + message
    }

    /** `New`: no cause, no component, an empty context. */
    constructor New(t: ErrorType, operation: string, message: string)
      ensures ty == t && this.operation == operation && this.message == message && cause == None
      ensures component == "" && context == Some(map[])
      ensures WellFounded(Cms(this))
    {
      ty := t;
      this.message := message;
      this.operation := operation;
      cause := None;
      depth := 0;
      component := "";
      context := Some(map[]);
    }

    /** `Wrap`: as `New`, with the given cause. */
    constructor Wrap(err: ErrorRef, t: ErrorType, operation: string, message: string)
      requires WellFounded(err)
      ensures ty == t && this.operation == operation && this.message == message && cause == Some(err)
      ensures component == "" && context == Some(map[])
      ensures WellFounded(Cms(this))
    {
      ty := t;
      this.message := message;
      this.operation := operation;
      cause := Some(err);
      depth := CauseDepth(err);
      component := "";
      context := Some(map[]);
    }

    /** `WithComponent`: sets the component and returns the same error. */
    method WithComponent(component: string) returns (r: CMSError)
      modifies this
      ensures r == this && this.component == component && context == old(context)
    {
      this.component := component;
      r := this;
    }

    /** `WithContext`: makes the map if it is nil, sets the key, and returns the same error. */
    method WithContext(key: string, value: string) returns (r: CMSError)
      modifies this
      ensures r == this && component == old(component)
      ensures context == Some(SetContext(old(context), key, value))
    {
      if context.None? {
        context := Some(map[]);
      }
      context := Some(context.value[key := value]);
      r := this;
    }
  }

  /** The context map after `WithContext(key, value)`. */
  function SetContext(context: Option<map<string, string>>, key: string, value: string): map<string, string>
  {
    (if context.None? then map[] else context.value)[key := value]
  }

  /** The key holds the new value, every other key keeps its value, and a nil map becomes a map of that key alone. */
  lemma SetContextEffect(context: Option<map<string, string>>, key: string, value: string)
    ensures var m := SetContext(context, key, value);
      && key in m && m[key] == value
      && (context.Some? ==> m.Keys == context.value.Keys + {key})
      && (context.Some? ==> forall k :: k in context.value && k != key ==> m[k] == context.value[k])
      && (context.None? ==> m == map[key := value])
  {
  }

  // ---------------------------------------------------------------------
  // Typed constructors
  // ---------------------------------------------------------------------

  /** The error was made by `New` or `Wrap` with these arguments. */
  predicate Made(e: CMSError, t: ErrorType, operation: string, message: string, cause: Option<ErrorRef>)
    reads e
  {
    e.ty == t && e.operation == operation && e.message == message && e.cause == cause &&
    e.component == "" && e.context == Some(map[]) && WellFounded(Cms(e))
  }

  method NewValidationError(operation: string, message: string) returns (e: CMSError)
    ensures fresh(e) && Made(e, Validation, operation, message, None)
  { e := new CMSError.New(Validation, operation, message); }

  method WrapValidationError(err: ErrorRef, operation: string, message: string) returns (e: CMSError)
    requires WellFounded(err)
    ensures fresh(e) && Made(e, Validation, operation, message, Some(err))
  { e := new CMSError.Wrap(err, Validation, operation, message); }

  method NewHTTPError(operation: string, message: string) returns (e: CMSError)
    ensures fresh(e) && Made(e, Http, operation, message, None)
  { e := new CMSError.New(Http, operation, message); }

  method WrapHTTPError(err: ErrorRef, operation: string, message: string) returns (e: CMSError)
    requires WellFounded(err)
    ensures fresh(e) && Made(e, Http, operation, message, Some(err))
  { e := new CMSError.Wrap(err, Http, operation, message); }

  method NewPluginError(operation: string, message: string) returns (e: CMSError)
    ensures fresh(e) && Made(e, Plugin, operation, message, None)
  { e := new CMSError.New(Plugin, operation, message); }

  method WrapPluginError(err: ErrorRef, operation: string, message: string) returns (e: CMSError)
    requires WellFounded(err)
    ensures fresh(e) && Made(e, Plugin, operation, message, Some(err))
  { e := new CMSError.Wrap(err, Plugin, operation, message); }

  method NewVMError(operation: string, message: string) returns (e: CMSError)
    ensures fresh(e) && Made(e, VM, operation, message, None)
  { e := new CMSError.New(VM, operation, message); }

  method WrapVMError(err: ErrorRef, operation: string, message: string) returns (e: CMSError)
    requires WellFounded(err)
    ensures fresh(e) && Made(e, VM, operation, message, Some(err))
  { e := new CMSError.Wrap(err, VM, operation, message); }

  method NewFirecrackerError(operation: string, message: string) returns (e: CMSError)
    ensures fresh(e) && Made(e, Firecracker, operation, message, None)
  { e := new CMSError.New(Firecracker, operation, message); }

  method WrapFirecrackerError(err: ErrorRef, operation: string, message: string) returns (e: CMSError)
    requires WellFounded(err)
    ensures fresh(e) && Made(e, Firecracker, operation, message, Some(err))
  { e := new CMSError.Wrap(err, Firecracker, operation, message); }

  method NewNetworkError(operation: string, message: string) returns (e: CMSError)
    ensures fresh(e) && Made(e, Network, operation, message, None)
  { e := new CMSError.New(Network, operation, message); }

  method WrapNetworkError(err: ErrorRef, operation: string, message: string) returns (e: CMSError)
    requires WellFounded(err)
    ensures fresh(e) && Made(e, Network, operation, message, Some(err))
  { e := new CMSError.Wrap(err, Network, operation, message); }

  method NewFileSystemError(operation: string, message: string) returns (e: CMSError)
    ensures fresh(e) && Made(e, FileSystem, operation, message, None)
  { e := new CMSError.New(FileSystem, operation, message); }

  method WrapFileSystemError(err: ErrorRef, operation: string, message: string) returns (e: CMSError)
    requires WellFounded(err)
    ensures fresh(e) && Made(e, FileSystem, operation, message, Some(err))
  { e := new CMSError.Wrap(err, FileSystem, operation, message); }

  method NewTimeoutError(operation: string, message: string) returns (e: CMSError)
    ensures fresh(e) && Made(e, Timeout, operation, message, None)
  { e := new CMSError.New(Timeout, operation, message); }

  method WrapTimeoutError(err: ErrorRef, operation: string, message: string) returns (e: CMSError)
    requires WellFounded(err)
    ensures fresh(e) && Made(e, Timeout, operation, message, Some(err))
  { e := new CMSError.Wrap(err, Timeout, operation, message); }

  method NewInternalError(operation: string, message: string) returns (e: CMSError)
    ensures fresh(e) && Made(e, Internal, operation, message, None)
  { e := new CMSError.New(Internal, operation, message); }

  method WrapInternalError(err: ErrorRef, operation: string, message: string) returns (e: CMSError)
    requires WellFounded(err)
    ensures fresh(e) && Made(e, Internal, operation, message, Some(err))
  { e := new CMSError.Wrap(err, Internal, operation, message); }

  // ---------------------------------------------------------------------
  // Classification
  // ---------------------------------------------------------------------

  /** `IsType`: the error itself is a `*CMSError` of that kind; causes are not consulted. */
  predicate IsType(r: ErrorRef, t: ErrorType)
  {
    r.Cms? && r.err.ty == t
  }

  /** `GetType`: the kind of a `*CMSError`, and "internal" for any other error. */
  function GetType(r: ErrorRef): ErrorType
  {
    if r.Cms? then r.err.ty else Internal
  }

  /** `GetContext`: the context map of a `*CMSError`, and nil for any other error. */
  function GetContext(r: ErrorRef): Option<map<string, string>>
    reads if r.Cms? then {r.err} else {}
  {
    if r.Cms? then r.err.context else None
  }

  /** `Unwrap`. */
  function Unwrap(e: CMSError): Option<ErrorRef>
  {
    e.cause
  }

  /**
   * `IsType` and `GetType` agree on typed errors; a foreign error is of no
   * kind although `GetType` reports it as internal and has no context; a
   * wrapping error's kind is its own, not its cause's.
   */
  lemma Classification(r: ErrorRef, t: ErrorType)
    ensures r.Cms? ==> (IsType(r, t) <==> GetType(r) == t)
    ensures r.Foreign? ==> !IsType(r, t) && GetType(r) == Internal && GetContext(r) == None
    ensures r.Cms? && r.err.cause.Some? && IsType(r.err.cause.value, t) && r.err.ty != t ==> !IsType(r, t)
  {
  }
}
