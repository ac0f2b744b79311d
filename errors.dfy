/**
 * The error values of both generations of the engine. Go's sentinel errors
 * (`errors.New` at package level) are distinct values even when their
 * messages coincide, so each gets its own constructor.
 */
module Errors {

  datatype Error =
    // engine/index.go
    | IndexNilBridge
    // engine/engine.go
    | EngineMissingIndex
    | EngineMissingBridge
    | EngineInvalidSpecial
    | EngineNoConnect
    // engine/action.go
    | EngineInvalidAction
    // engine.go (root package)
    | NoBridge
    // action.go (root package)
    | RootInvalidAction
    // `errors.Wrap(cause, context)`
    | Wrapped(context: string, cause: Error)
    // anything produced by the bridge, the connect callback or the context
    | External(code: nat)
}
