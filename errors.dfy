/** The Python exceptions the modelled code can raise and propagate. */
module Errors {

  datatype Exception =
    /** A dict lookup `d[key]` of a missing key. */
    | KeyError(key: string)
    /** A list index `xs[i]` out of range. */
    | IndexError
    /** Indexing a list with `None`. */
    | TypeError
    /** Reading an attribute that was never assigned. */
    | AttributeError(name: string)
    /** `int(text)` on a text that is not an integer literal. */
    | ValueError(text: string)
    /** `open(path)` of a file that does not exist. */
    | FileNotFoundError(path: string)
    /** An error reply of the Kubernetes API server. */
    | ApiException(status: int)
    /** `utils.create_from_yaml` rejected by the cluster. */
    | FailToCreateError(status: int)
}
