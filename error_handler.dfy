/**
 * Error classification for GraphQL responses: which errors reach the
 * client as they are and which are masked as an internal server error,
 * and the message and code each custom error class fixes.
 */
module ErrorHandler {
  import opened Wrappers

  // The codes this library manages itself (`InternalErrorCode`).
  const BadUserInput: string := "BAD_USER_INPUT"
  const Forbidden: string := "FORBIDDEN"
  const InternalServerErrorCode: string := "INTERNAL_SERVER_ERROR"
  const NotFound: string := "NOT_FOUND"
  const Unauthenticated: string := "UNAUTHENTICATED"

  // The codes of Apollo Server 4 (`ApolloServerErrorCode`) that are not
  // also internal codes.
  const GraphqlParseFailed: string := "GRAPHQL_PARSE_FAILED"
  const GraphqlValidationFailed: string := "GRAPHQL_VALIDATION_FAILED"
  const PersistedQueryNotFound: string := "PERSISTED_QUERY_NOT_FOUND"
  const PersistedQueryNotSupported: string := "PERSISTED_QUERY_NOT_SUPPORTED"
  const OperationResolutionFailure: string := "OPERATION_RESOLUTION_FAILURE"
  const BadRequest: string := "BAD_REQUEST"

  /** `Object.values(InternalErrorCode)`, in declaration order. */
  const PocketErrorCodes: seq<string> :=
    [BadUserInput, Forbidden, InternalServerErrorCode, NotFound, Unauthenticated]

  /** `Object.values(ApolloServerErrorCode)`, in declaration order. */
  const ApolloErrorCodes: seq<string> :=
    [InternalServerErrorCode, GraphqlParseFailed, GraphqlValidationFailed, PersistedQueryNotFound,
     PersistedQueryNotSupported, BadUserInput, OperationResolutionFailure, BadRequest]

  /** The codes a gateway-shaped error may carry and still reach the client unmasked. */
  const GatewayUnmaskedErrors: set<string> := set c | c in PocketErrorCodes + ApolloErrorCodes

  /** The message every masked error carries. */
  const MaskedMessage: string := "Internal server error"

  /** The prefix `NotFoundError` puts before its message. */
  const NotFoundPrefix: string := "Error - Not Found"

  /**
   * A value under an `extensions` key, as far as the code looks at it: a
   * string, `null`/`undefined`, or anything else together with what its
   * `toString()` yields.
   */
  datatype ExtValue = Str(s: string) | Nullish | NonString(text: string)

  type Extensions = map<string, ExtValue>

  datatype PathSegment = Field(name: string) | Index(i: nat)

  type Path = seq<PathSegment>

  /** A `GraphQLError`: its message, its extensions object and its path, if any. */
  datatype GraphQLError = GraphQLError(message: string, extensions: Extensions, path: Option<Path>)

  /** A formatted error as the server hands it to the handlers and as `toJSON` yields it. */
  datatype FormattedError = FormattedError(message: string, path: Option<Path>, extensions: Extensions)

  /**
   * The `GraphQLErrorOptions` the constructors take into account; passing
   * no options at all is `ErrorOptions(None, None)`.
   */
  datatype ErrorOptions = ErrorOptions(extensions: Option<Extensions>, path: Option<Path>)

  /** The `extensions` property of a thrown object, as `isGatewayError` probes it. */
  datatype ExtensionsField =
    | NoExtensions                       // no `extensions` property
    | NullExtensions                     // `extensions: null`, whose `typeof` is "object"
    | NonObjectExtensions                // any other non-object, `undefined` included
    | ObjectExtensions(fields: Extensions)

  /**
   * A thrown value. `NonObject` is every falsy value and every value whose
   * `typeof` is not "object". For an object, `unwrapsToGraphQLError` says
   * whether `unwrapResolverError` of it is a `GraphQLError` instance.
   */
  datatype Thrown =
    | NonObject
    | Object(unwrapsToGraphQLError: bool, message: string, extensions: ExtensionsField, path: Option<Path>)

  /** What evaluating `'code' in null` throws. */
  datatype TypeError = TypeError

  /** A `GraphQLError` instance thrown as such. */
  function AsThrown(e: GraphQLError): Thrown {
    Object(true, e.message, ObjectExtensions(e.extensions), e.path)
  }

  /**
   * An error as it reaches the gateway from a subgraph over HTTP: every
   * field survives, its class does not.
   */
  function AsRemote(e: FormattedError): Thrown {
    Object(false, e.message, ObjectExtensions(e.extensions), e.path)
  }

  function ToJson(e: GraphQLError): FormattedError {
    FormattedError(e.message, e.path, e.extensions)
  }

  /** The string `extensions.code` of a gateway-shaped error. */
  function GatewayCode(value: Thrown): Option<string> {
    if value.Object? && value.extensions.ObjectExtensions? && "code" in value.extensions.fields
       && value.extensions.fields["code"].Str?
    then Some(value.extensions.fields["code"].s)
    else None
  }

  /**
   * A non-null object whose `extensions` is an object holding a string
   * `code`. A null `extensions` passes the `typeof` test and then makes
   * `'code' in extensions` throw.
   */
  function IsGatewayError(value: Thrown): (r: Result<bool, TypeError>)
    ensures r.Err? <==> value.Object? && value.extensions.NullExtensions?
    ensures r == Ok(true) <==> GatewayCode(value).Some?
  {
    match value
    case NonObject => Ok(false)
    case Object(_, _, extensions, _) =>
      match extensions
      case NoExtensions => Ok(false)
      case NullExtensions => Err(TypeError)
      case NonObjectExtensions => Ok(false)
      case ObjectExtensions(fields) => Ok("code" in fields && fields["code"].Str?)
  }

  /** `(error as GraphQLError)?.path`. */
  function PathOf(error: Thrown): Option<Path> {
    if error.Object? then error.path else None
  }

  /** The extensions a constructor receives from its caller: `options?.extensions`, spread. */
  function CallerExtensions(options: ErrorOptions): Extensions {
    if options.extensions.Some? then options.extensions.value else map[]
  }

  /** `new GraphQLError(message, options)`: extensions default to an empty object. */
  function NewGraphQLError(message: string, options: ErrorOptions): (e: GraphQLError)
    ensures e.message == message && e.path == options.path
    ensures e.extensions == CallerExtensions(options)
  {
    GraphQLError(message, CallerExtensions(options), options.path)
  }

  /** `{...options, extensions: {...options?.extensions, code}}`. */
  function WithCode(options: ErrorOptions, code: string): (r: ErrorOptions)
    ensures r.path == options.path && r.extensions.Some?
    ensures "code" in r.extensions.value && r.extensions.value["code"] == Str(code)
    ensures forall k :: k in CallerExtensions(options) && k != "code" ==>
              k in r.extensions.value && r.extensions.value[k] == CallerExtensions(options)[k]
    ensures forall k :: k in r.extensions.value ==> k == "code" || k in CallerExtensions(options)
  {
    ErrorOptions(Some(CallerExtensions(options)["code" := Str(code)]), options.path)
  }

  /** The base of the custom error classes: a plain `GraphQLError`. */
  function CustomGraphQLError(message: string, options: ErrorOptions): (e: GraphQLError)
    ensures e.message == message && e.path == options.path
    ensures e.extensions == CallerExtensions(options)
  {
    NewGraphQLError(message, options)
  }

  /** A predicate shared by the classes below: `e` is the caller's error with only its code replaced. */
  predicate FixesCode(e: GraphQLError, message: string, options: ErrorOptions, code: string) {
    && e.message == message
    && e.path == options.path
    && "code" in e.extensions && e.extensions["code"] == Str(code)
    && (forall k :: k in CallerExtensions(options) && k != "code" ==>
          k in e.extensions && e.extensions[k] == CallerExtensions(options)[k])
    && (forall k :: k in e.extensions ==> k == "code" || k in CallerExtensions(options))
  }

  function NotFoundError(message: string, options: ErrorOptions): (e: GraphQLError)
    ensures FixesCode(e, NotFoundPrefix + ": " + message, options, NotFound)
  {
    CustomGraphQLError(NotFoundPrefix + ": " + message, WithCode(options, NotFound))
  }

  /** `message ?? 'Internal server error'`: the default stands in for a null or undefined message. */
  function InternalServerError(message: Option<string>, options: ErrorOptions): (e: GraphQLError)
    ensures FixesCode(e, if message.Some? then message.value else MaskedMessage, options, InternalServerErrorCode)
  {
    CustomGraphQLError(if message.Some? then message.value else MaskedMessage,
                       WithCode(options, InternalServerErrorCode))
  }

  /** Deprecated alias of `NotFoundError` that keeps the message as given. */
  function GraphQLNotFoundError(message: string, options: ErrorOptions): (e: GraphQLError)
    ensures FixesCode(e, message, options, NotFound)
  {
    CustomGraphQLError(message, WithCode(options, NotFound))
  }

  function UserInputError(message: string, options: ErrorOptions): (e: GraphQLError)
    ensures FixesCode(e, message, options, BadUserInput)
  {
    CustomGraphQLError(message, WithCode(options, BadUserInput))
  }

  function AuthenticationError(message: string, options: ErrorOptions): (e: GraphQLError)
    ensures FixesCode(e, message, options, Unauthenticated)
  {
    CustomGraphQLError(message, WithCode(options, Unauthenticated))
  }

  function ForbiddenError(message: string, options: ErrorOptions): (e: GraphQLError)
    ensures FixesCode(e, message, options, Forbidden)
  {
    CustomGraphQLError(message, WithCode(options, Forbidden))
  }

  /**
   * What a masked error becomes: an `InternalServerError` with the masked
   * message and only the original path, formatted.
   */
  function Masked(path: Option<Path>): (r: FormattedError)
    ensures r.message == MaskedMessage && r.path == path
    ensures r.extensions == map["code" := Str(InternalServerErrorCode)]
  {
    ToJson(InternalServerError(Some(MaskedMessage), ErrorOptions(None, path)))
  }

  /**
   * `errorHandler`: GraphQL errors pass unchanged; so do gateway-shaped
   * errors with an unmasked code. Everything else is masked, keeping only
   * its path. The only failure is the `TypeError` of a null `extensions`.
   */
  function ErrorHandler(formattedError: FormattedError, error: Thrown): (r: Result<FormattedError, TypeError>)
    ensures error.Object? && error.unwrapsToGraphQLError ==> r == Ok(formattedError)
    ensures r.Err? <==> error.Object? && !error.unwrapsToGraphQLError && error.extensions.NullExtensions?
    ensures r.Ok? ==> r.value == formattedError || r.value == Masked(PathOf(error))
    ensures !(error.Object? && error.unwrapsToGraphQLError) && GatewayCode(error).Some? ==>
              r == Ok(if GatewayCode(error).value in GatewayUnmaskedErrors then formattedError
                      else Masked(PathOf(error)))
    ensures !(error.Object? && error.unwrapsToGraphQLError) && GatewayCode(error).None? && r.Ok? ==>
              r.value == Masked(PathOf(error))
  {
    if error.Object? && error.unwrapsToGraphQLError then Ok(formattedError)
    else match IsGatewayError(error)
      case Err(e) => Err(e)
      case Ok(gateway) =>
        if gateway && GatewayCode(error).value in GatewayUnmaskedErrors then Ok(formattedError)
        else Ok(Masked(PathOf(error)))
  }

  /**
   * `gatewayErrorHandler`: a gateway-shaped error with an unmasked code is
   * rebuilt as a plain `GraphQLError` and so passes; any other error goes
   * to `errorHandler` as it is. The two handlers differ only on a
   * `GraphQLError` whose `extensions` is null, which only this one rejects.
   */
  function GatewayErrorHandler(formattedError: FormattedError, error: Thrown): (r: Result<FormattedError, TypeError>)
    ensures GatewayCode(error).Some? && GatewayCode(error).value in GatewayUnmaskedErrors ==> r == Ok(formattedError)
    ensures !(error.Object? && error.unwrapsToGraphQLError && error.extensions.NullExtensions?) ==>
              r == ErrorHandler(formattedError, error)
    ensures error.Object? && error.unwrapsToGraphQLError && error.extensions.NullExtensions? ==>
              r.Err? && ErrorHandler(formattedError, error) == Ok(formattedError)
  {
    match IsGatewayError(error)
    case Err(e) => Err(e)
    case Ok(gateway) =>
      if gateway && GatewayCode(error).value in GatewayUnmaskedErrors then
        var reworkedError := NewGraphQLError(error.message, ErrorOptions(Some(error.extensions.fields), error.path));
        ErrorHandler(formattedError, AsThrown(reworkedError))
      else ErrorHandler(formattedError, error)
  }

  /**
   * Serializing an error and reading it back on the gateway keeps its
   * message, extensions and path, and loses only its class.
   */
  lemma RemoteErrorLosesOnlyItsClass(e: GraphQLError)
    ensures AsThrown(e).Object? && AsRemote(ToJson(e)) == AsThrown(e).(unwrapsToGraphQLError := false)
    ensures GatewayCode(AsRemote(ToJson(e))) == GatewayCode(AsThrown(e))
  {
  }

  /**
   * A `CustomGraphQLError` keeps whatever code its caller gave it: once it
   * reaches the gateway without its class, it passes exactly when that code
   * is an unmasked string, and is masked otherwise.
   */
  lemma CustomErrorAtTheGateway(formattedError: FormattedError, message: string, options: ErrorOptions)
    ensures var ext := CallerExtensions(options);
            var unmasked := "code" in ext && ext["code"].Str? && ext["code"].s in GatewayUnmaskedErrors;
            GatewayErrorHandler(formattedError, AsRemote(ToJson(CustomGraphQLError(message, options)))) ==
              Ok(if unmasked then formattedError else Masked(options.path))
  {
  }

  /** The unmasked set, written out: five internal codes and six more Apollo ones. */
  lemma UnmaskedCodes()
    ensures GatewayUnmaskedErrors ==
              {BadUserInput, Forbidden, InternalServerErrorCode, NotFound, Unauthenticated,
               GraphqlParseFailed, GraphqlValidationFailed, PersistedQueryNotFound,
               PersistedQueryNotSupported, OperationResolutionFailure, BadRequest}
    ensures forall c :: c in PocketErrorCodes ==> c in GatewayUnmaskedErrors
  {
  }

  /**
   * An error thrown by any of the classes above, once it has lost its class
   * on the way from a subgraph, still reaches the client unchanged through
   * either handler, because every internal code is unmasked.
   */
  lemma RemoteInternalErrorsPass(formattedError: FormattedError, e: GraphQLError, code: string)
    requires code in PocketErrorCodes
    requires "code" in e.extensions && e.extensions["code"] == Str(code)
    ensures ErrorHandler(formattedError, AsRemote(ToJson(e))) == Ok(formattedError)
    ensures GatewayErrorHandler(formattedError, AsRemote(ToJson(e))) == Ok(formattedError)
  {
    UnmaskedCodes();
  }

  /**
   * Masking is stable: a masked error that travels on to the gateway
   * passes there unchanged.
   */
  lemma MaskedErrorPasses(path: Option<Path>)
    ensures var m := Masked(path);
            && ErrorHandler(m, AsRemote(m)) == Ok(m)
            && GatewayErrorHandler(m, AsRemote(m)) == Ok(m)
  {
    UnmaskedCodes();
  }

  /** A code outside the unmasked set is masked even on a gateway-shaped error. */
  lemma UnknownCodeIsMasked(formattedError: FormattedError, message: string, code: string, path: Option<Path>)
    requires code !in GatewayUnmaskedErrors
    ensures var error := Object(false, message, ObjectExtensions(map["code" := Str(code)]), path);
            GatewayErrorHandler(formattedError, error) == Ok(Masked(path))
  {
  }
}
