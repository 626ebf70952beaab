/**
 * The values that cross the boundary between the text-command system and the
 * application-command system: the exceptions either side raises, the objects
 * a parameter may name as its converter, and the small wrappers used to say
 * whether a host call returned or raised.
 */
module Errors {

  datatype Option<+T> = None | Some(value: T)

  /** A value of either kind, or the exception that was raised instead. */
  datatype Result<+T> = Ok(value: T) | Err(error: Exc)

  /** How a host call that returns nothing of interest finished. */
  datatype Completion = Normal | Threw(error: Exc)

  /** A Python value returned by a callback or a converter. */
  datatype PyObj = PyNone | Obj(id: nat)

  /** How a host call that returns a value finished. */
  datatype Outcome = Returned(value: PyObj) | Raised(error: Exc)

  /**
   * What a parameter's converter is, as far as the hybrid adapter can tell:
   * a subclass of the text system's Converter (whose `convert` is either
   * already bound, i.e. a classmethod, or must be called on a new instance),
   * an instance of such a subclass, or something else (any other class or
   * object). `transformerMarker` says whether the object carries the
   * application-command transformer marker attribute.
   */
  datatype ConverterKind =
    | ConverterClass(convertIsBound: bool)
    | ConverterObject
    | OtherClass
    | OtherObject

  datatype Converter = Converter(id: nat, kind: ConverterKind, transformerMarker: bool)

  /**
   * The exceptions that matter to the adapter. The first three belong to the
   * application-command hierarchy (AppCommandError and its subclasses), the
   * next three to the text-command hierarchy (CommandError and subclasses),
   * the rest to neither.
   */
  datatype Exc =
      /** app_commands.CommandSignatureMismatch: a developer error. */
    | SignatureMismatch(command: string)
      /** app_commands.TransformerError with its `__cause__`. */
    | TransformerError(value: string, cause: Option<Exc>)
      /** Any other app_commands.AppCommandError (CommandInvokeError, CheckFailure, ...). */
    | AppCommandError(message: string)
      /** commands.CommandError or any subclass other than the two below. */
    | CommandError(message: string)
      /** commands.HybridCommandError wrapping an application-command error. */
    | HybridCommandError(original: Exc)
      /** commands.ConversionError carrying the converter and the original exception. */
    | ConversionError(converter: Converter, original: Exc)
      /** commands.CommandRegistrationError (a ClientException, not a CommandError). */
    | CommandRegistrationError(name: string, aliasConflict: bool)
    | TypeError(message: string)
    | ValueError(subject: string)
    | AttributeError(attribute: string)
    | KeyError(key: string)
      /** Any other `Exception` subclass outside both hierarchies. */
    | OtherError(name: string)

  /** `isinstance(e, commands.CommandError)` */
  predicate IsCommandError(e: Exc) {
    e.CommandError? || e.HybridCommandError? || e.ConversionError?
  }

  /** `isinstance(e, app_commands.AppCommandError)` */
  predicate IsAppCommandError(e: Exc) {
    e.SignatureMismatch? || e.TransformerError? || e.AppCommandError?
  }

  /** The `__cause__` of an exception as the adapter leaves it. */
  function Cause(e: Exc): Option<Exc> {
    match e
    case TransformerError(_, cause) => cause
    case HybridCommandError(original) => Some(original)
    case ConversionError(_, original) => Some(original)
    case _ => None
  }
}
