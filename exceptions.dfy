/** The error taxonomy of the plugin engine (networkguardian/exceptions.py), together with the
    Python built-in exceptions the modelled code raises, and the wrappers the model uses in place
    of Python's `None` and of raised exceptions. */
module Exceptions {

  /** Python's `None` or a value. */
  datatype Option<+T> = None | Some(value: T)

  /** An exception, as a value. The plugin-specific classes come first; the built-in ones follow;
      `OtherError` stands for any other class a plugin's own code may raise. */
  datatype Error =
    | PluginException(msg: string)
    | PluginInitializationError(msg: string)
    | PluginProcessingError(msg: string)
    | PluginUnsupportedPlatformError(msg: string)
    | PluginRequiresElevationError(msg: string)
    | PluginExecutorError(msg: string)
    | ValueError(msg: string)
    | TypeError(msg: string)
    | KeyError(key: int)
    | ZeroDivisionError(msg: string)
    | NotImplementedError(msg: string)
    | EnvironmentError(msg: string)
    | OtherError(kind: string, msg: string)

  /** The messages of the `TypeError` Python raises when `None` or a `str` is called. */
  const NoneNotCallable := "'NoneType' object is not callable"
  const StrNotCallable := "'str' object is not callable"

  /** What a call does: it returns a value or it raises an exception. */
  datatype Result<+T> = Ok(value: T) | Raise(error: Error)

  /** The keyed payload an executor produces for its template. */
  type Payload = map<string, string>

  /** What an executor returns: the payload, or `None` when it returns nothing. */
  type Data = Option<Payload>
}
