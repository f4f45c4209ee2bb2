// CoreDataKit/Types.swift: the commit actions, CoreDataKit's own error enum,
// its description text, and how it is boxed into and recovered from an NSError.
// Also the error values the rest of the model raises.

module Errors {
  import opened Wrappers
  import opened Strings

  /** What happens after a block of changes has run on a context. */
  datatype CommitAction =
    | DoNothing
    | SaveToParentContext
    | SaveToPersistentStore
    | Undo
    | RollbackAllChanges

  /** The codes CoreDataKit puts on the NSErrors its importing and context
    * helpers throw. Their numeric values are not part of this model. */
  datatype CoreDataKitErrorCode =
    | IdentifyingAttributeNotFound
    | InvalidValue
    | UnexpectedNumberOfResults
    | ImportCancelled
    | InvalidPropertyConfiguration
    | ContextNotFound
    | RelationshipPropertyNotFound
    | UnimplementedMethod
    | EntityDescriptionNotFound

  /** An NSError code: a CoreDataKit code, or a plain number (Cocoa and Core Data codes). */
  datatype Code = Kit(kit: CoreDataKitErrorCode) | Number(number: int)

  /** A userInfo value: text, or a boxed CoreDataKitError (`CoreDataKitErrorBox`). */
  datatype UserInfoValue = Text(text: string) | Box(unbox: CoreDataKitError)

  datatype NSError = NSError(domain: string, code: Code, userInfo: map<string, UserInfoValue>)

  datatype CoreDataKitError =
    | CoreDataError(error: NSError)
    | ImportCancelled(entityName: string)
    | ImportError(description: string)
    | ContextError(description: string)
    | UnimplementedMethod(description: string)
    | UnknownError(description: string)

  /** The outcome of a throwing call. */
  datatype Result<T> = Success(value: T) | Failure(error: NSError)

  const CoreDataKitErrorDomain: string := "CoreDataKitErrorDomain"
  const CoreDataKitErrorUserInfoErrorKey: string := "CoreDataKitErrorUserInfoErrorKey"
  const CocoaErrorDomain: string := "NSCocoaErrorDomain"

  /** Core Data's code for a lookup of an object that does not exist. */
  const ManagedObjectReferentialIntegrityError: int := 133000
  /** Core Data's general code, used when a coordinator has no persistent store. */
  const CoreDataGeneralError: int := 134060

  /** An error thrown by CoreDataKit's importing and context helpers. */
  function KitError(code: CoreDataKitErrorCode): (e: NSError)
    ensures e.domain == CoreDataKitErrorDomain && e.code == Kit(code)
    ensures CoreDataKitErrorUserInfoErrorKey !in e.userInfo
  {
    NSError(CoreDataKitErrorDomain, Kit(code), map[])
  }

  /** An error reported by Core Data itself. */
  function CocoaError(code: int): (e: NSError)
    ensures e.domain == CocoaErrorDomain && e.code == Number(code)
    ensures CoreDataKitErrorUserInfoErrorKey !in e.userInfo
  {
    NSError(CocoaErrorDomain, Number(code), map[])
  }

  function CodeText(c: Code): string
  {
    match c
    case Number(n) => IntToString(n)
    case Kit(k) =>
      match k
      case IdentifyingAttributeNotFound => "IdentifyingAttributeNotFound"
      case InvalidValue => "InvalidValue"
      case UnexpectedNumberOfResults => "UnexpectedNumberOfResults"
      case ImportCancelled => "ImportCancelled"
      case InvalidPropertyConfiguration => "InvalidPropertyConfiguration"
      case ContextNotFound => "ContextNotFound"
      case RelationshipPropertyNotFound => "RelationshipPropertyNotFound"
      case UnimplementedMethod => "UnimplementedMethod"
      case EntityDescriptionNotFound => "EntityDescriptionNotFound"
  }

  /** How an NSError prints inside an interpolated string (domain and code only). */
  function ErrorText(e: NSError): string
  {
    "Error Domain=" + e.domain + " Code=" + CodeText(e.code)
  }

  /** `CoreDataKitError.description` */
  function Description(e: CoreDataKitError): (r: string)
    ensures e.ImportError? || e.ContextError? || e.UnimplementedMethod? ==> r == e.description
    ensures e.ImportCancelled? ==> r == "Import of entity " + e.entityName + " cancelled"
    ensures e.UnknownError? ==> r == "Unknown error: " + e.description
    ensures e.CoreDataError? ==> r == "CoreDataError: " + ErrorText(e.error)
  {
    match e
    case CoreDataError(error) => "CoreDataError: " + ErrorText(error)
    case ImportCancelled(entityName) => "Import of entity " + entityName + " cancelled"
    case ContextError(description) => description
    case ImportError(description) => description
    case UnimplementedMethod(description) => description
    case UnknownError(description) => "Unknown error: " + description
  }

  /** `CoreDataKitErrorBox.description`: the boxed error's own description. */
  function BoxDescription(box: UserInfoValue): (r: string)
    requires box.Box?
    ensures r == Description(box.unbox)
  {
    Description(box.unbox)
  }

  /** `CoreDataKitError.nsError`: a Core Data error is unwrapped; every other
    * case is boxed into a CoreDataKit-domain NSError with code 0. */
  function NsError(e: CoreDataKitError): (r: NSError)
    ensures e.CoreDataError? ==> r == e.error
    ensures !e.CoreDataError? ==>
      r.domain == CoreDataKitErrorDomain && r.code == Number(0) &&
      r.userInfo == map[CoreDataKitErrorUserInfoErrorKey := Box(e)]
  {
    match e
    case CoreDataError(error) => error
    case _ => NSError(CoreDataKitErrorDomain, Number(0), map[CoreDataKitErrorUserInfoErrorKey := Box(e)])
  }

  /** `NSError.coreDataKitError`: the boxed error, if the userInfo holds a box. */
  function CoreDataKitErrorOf(e: NSError): (r: Option<CoreDataKitError>)
    ensures r.Some? <==> CoreDataKitErrorUserInfoErrorKey in e.userInfo && e.userInfo[CoreDataKitErrorUserInfoErrorKey].Box?
  {
    if CoreDataKitErrorUserInfoErrorKey in e.userInfo then
      match e.userInfo[CoreDataKitErrorUserInfoErrorKey]
      case Box(unbox) => Some(unbox)
      case Text(_) => None
    else None
  }

  /** Boxing round-trips for every case that is not a Core Data error; a Core
    * Data error comes back as whatever its own userInfo holds. */
  lemma BoxRoundTrip(e: CoreDataKitError)
    ensures !e.CoreDataError? ==> CoreDataKitErrorOf(NsError(e)) == Some(e)
    ensures e.CoreDataError? ==> CoreDataKitErrorOf(NsError(e)) == CoreDataKitErrorOf(e.error)
  {
  }

  /** The errors CoreDataKit's helpers throw directly carry no box, so
    * `coreDataKitError` does not recover anything from them. */
  lemma HelperErrorsCarryNoBox(code: CoreDataKitErrorCode, n: int)
    ensures CoreDataKitErrorOf(KitError(code)) == None
    ensures CoreDataKitErrorOf(CocoaError(n)) == None
  {
  }
}
