/** Kotlin and JVM types shared by the library's helpers: nullable values,
    the fixed-width integers the helpers take, and the exceptions they
    raise or swallow. */
module KotlinTypes {

  /** A nullable value `T?`: `None` stands for `null`. */
  datatype Option<+T> = None | Some(value: T) {

    /** The elvis operator `this ?: default`. */
    function OrElse(default: T): (r: T)
      ensures Some? ==> r == value
      ensures None? ==> r == default
    {
      match this
      case Some(v) => v
      case None => default
    }
  }

  /** Kotlin `Long`: a signed 64-bit integer. */
  newtype Long = x: int | -0x8000_0000_0000_0000 <= x < 0x8000_0000_0000_0000

  /** Kotlin `Int`: a signed 32-bit integer. */
  newtype Int = x: int | -0x8000_0000 <= x < 0x8000_0000

  /** A thrown exception: its class name and its (nullable) message. */
  datatype Throwable = Throwable(className: string, message: Option<string>) {

    /** `Throwable.toString()`: the class name, followed by ": " and the
        message when there is one. */
    function ToString(): (s: string)
      ensures |s| >= |className|
      ensures s[..|className|] == className
      ensures message.None? <==> |s| == |className|
    {
      match message
      case None => className
      case Some(m) => className + ": " + m
    }
  }

  /** `IllegalStateException(message)`. */
  function IllegalStateException(message: string): (e: Throwable)
    ensures e.message == Some(message)
  {
    Throwable("java.lang.IllegalStateException", Some(message))
  }
}
