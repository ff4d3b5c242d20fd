/** Result types shared by the whole model. */
module Prelude {

  datatype Option<+T> = None | Some(value: T)

  /** Why a resource could not be built. The operator only logs these. */
  datatype BuildError =
    | InterfaceNotFound(name: string)
    | BadAddress(address: string)
    | NoInstances(interface: string)
    | IndexOutOfRange
    | MissingGateway(name: string)
    | BadConfigRef

  /** The outcome of building a resource: a value, a reported error, or a nil dereference. */
  datatype Build<+T> = Built(value: T) | Rejected(error: BuildError) | Crashed

  /** What a loop has built so far, in front of what remains to be built. */
  ghost function Behind<T>(before: seq<T>, rest: Build<seq<T>>): Build<seq<T>> {
    if rest.Built? then Built(before + rest.value) else rest
  }

  lemma BehindNothing<T>(rest: Build<seq<T>>)
    ensures Behind([], rest) == rest
  {
    if rest.Built? {
      assert [] + rest.value == rest.value;
    }
  }

  lemma BehindMore<T>(before: seq<T>, middle: seq<T>, rest: Build<seq<T>>)
    ensures Behind(before, Behind(middle, rest)) == Behind(before + middle, rest)
  {
    if rest.Built? {
      assert before + (middle + rest.value) == before + middle + rest.value;
    }
  }

  lemma BehindEverything<T>(before: seq<T>)
    ensures Behind(before, Built([])) == Built(before)
  {
    assert before + [] == before;
  }
}
