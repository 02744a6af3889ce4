/**
 * The central error handler (src/lib/utils/errorHandler.ts): the category
 * a thrown value falls into, the message shown for it, the severity of the
 * notice, `createError` and `handleAsync`. A thrown value is described by
 * what the handler inspects: its class and the properties it tests.
 */
module ErrorHandling {
  import opened Wrappers
  import opened JsString

  /** `ErrorCategory`; `Unlisted` is a `category` property holding no value of the enum. */
  datatype Category = Network | Auth | Validation | NotFound | Permission | Storage | Geolocation | Unknown
                    | Unlisted(raw: string)

  /** The class of a thrown object, as far as `instanceof` tells. */
  datatype Kind = PlainObject | ErrorInstance | TypeErrorInstance | GeolocationInstance(geoCode: nat)

  /**
   * A thrown value: an object, with its own `code`, `message` and `category`
   * if it has them and whether it has `details` or `hint`; or a primitive,
   * given by `String(value)`.
   */
  datatype Thrown =
    | Object(kind: Kind, code: Option<string>, message: Option<string>, detailsOrHint: bool, category: Option<Category>)
    | Primitive(text: string)

  /** `AppError`; the original error it wraps is not part of this model. */
  datatype AppError = AppError(category: Category, message: string, code: Option<string>)

  predicate IsErrorInstance(e: Thrown) {
    e.Object? && (e.kind.ErrorInstance? || e.kind.TypeErrorInstance?)
  }

  /** `'message' in error`: an own property, or the one every `Error` inherits. */
  predicate HasMessage(e: Thrown) {
    e.Object? && (e.message.Some? || !e.kind.PlainObject?)
  }

  /** The `message` property as read; an `Error` without one of its own inherits the empty string. */
  function MessageText(e: Thrown): string {
    if e.Object? && e.message.Some? then e.message.value else ""
  }

  /** `isSupabaseError` */
  predicate IsSupabaseShaped(e: Thrown) {
    e.Object? && (e.code.Some? || HasMessage(e)) && e.detailsOrHint
  }

  /** `isAppError` */
  predicate IsAppErrorShaped(e: Thrown) {
    e.Object? && e.category.Some? && HasMessage(e)
  }

  /** `n.toString()` */
  function Decimal(n: nat): (r: string)
    ensures n < 10 ==> |r| == 1
    ensures n >= 10 ==> |r| >= 2
    ensures forall i :: 0 <= i < |r| ==> '0' <= r[i] <= '9'
    ensures r[|r| - 1] == "0123456789"[n % 10]
  {
    if n < 10 then ["0123456789"[n]] else Decimal(n / 10) + ["0123456789"[n % 10]]
  }

  /** The Supabase rules, tried in order; none may apply. */
  function SupabaseCategory(e: Thrown): Option<AppError>
    requires e.Object?
  {
    if e.code == Some("PGRST116") then Some(AppError(NotFound, "Resource not found", e.code))
    else if e.code == Some("23505") then Some(AppError(Validation, "Duplicate entry", e.code))
    else if Contains(MessageText(e), "JWT") then Some(AppError(Auth, "Authentication error", None))
    else None
  }

  /** The message rules for a generic `Error`, tried in order on the lower-cased message. */
  function MessageCategory(message: string): (c: Category)
    ensures c == Permission <==> Contains(Lower(message), "permission") || Contains(Lower(message), "unauthorized")
    ensures c == Unknown <==>
      !Contains(Lower(message), "permission") && !Contains(Lower(message), "unauthorized")
      && !Contains(Lower(message), "not found") && !Contains(Lower(message), "404")
      && !Contains(Lower(message), "network") && !Contains(Lower(message), "offline")
    ensures c == NotFound <==>
      !Contains(Lower(message), "permission") && !Contains(Lower(message), "unauthorized")
      && (Contains(Lower(message), "not found") || Contains(Lower(message), "404"))
    ensures c == Network <==>
      !Contains(Lower(message), "permission") && !Contains(Lower(message), "unauthorized")
      && !Contains(Lower(message), "not found") && !Contains(Lower(message), "404")
      && (Contains(Lower(message), "network") || Contains(Lower(message), "offline"))
    ensures c in {Permission, NotFound, Network, Unknown}
  {
    var msg := Lower(message);
    if Contains(msg, "permission") || Contains(msg, "unauthorized") then Permission
    else if Contains(msg, "not found") || Contains(msg, "404") then NotFound
    else if Contains(msg, "network") || Contains(msg, "offline") then Network
    else Unknown
  }

  /**
   * `categorizeError`: a fetch `TypeError`, then the Supabase rules, then a
   * geolocation error, then an `AppError`-shaped object returned as it is,
   * then the message rules of a generic `Error`, else unknown.
   */
  function Categorize(e: Thrown): (r: AppError)
    ensures r.category == Storage || r.category.Unlisted? ==> IsAppErrorShaped(e) && e.category == Some(r.category)
    ensures r.category == Geolocation ==> e.Object? && (e.kind.GeolocationInstance? || e.category == Some(Geolocation))
    ensures e.Primitive? ==> r == AppError(Unknown, e.text, None)
  {
    if e.Primitive? then AppError(Unknown, e.text, None)
    else if e.kind.TypeErrorInstance? && Contains(MessageText(e), "fetch") then AppError(Network, "Network request failed", None)
    else if IsSupabaseShaped(e) && SupabaseCategory(e).Some? then SupabaseCategory(e).value
    else if e.kind.GeolocationInstance? then
      AppError(Geolocation, "Geolocation error: " + Decimal(e.kind.geoCode), Some(Decimal(e.kind.geoCode)))
    else if IsAppErrorShaped(e) then AppError(e.category.value, MessageText(e), e.code)
    else if IsErrorInstance(e) then AppError(MessageCategory(MessageText(e)), MessageText(e), None)
    else AppError(Unknown, "[object Object]", None)
  }

  /** A fetch `TypeError` is a network error, whatever else it carries. */
  lemma FetchFailureFirst(e: Thrown)
    requires e.Object? && e.kind.TypeErrorInstance? && Contains(MessageText(e), "fetch")
    ensures Categorize(e) == AppError(Network, "Network request failed", None)
  {
  }

  /**
   * The Supabase codes, then the JWT message, decide for a Supabase-shaped
   * error that is not a fetch failure.
   */
  lemma SupabaseRules(e: Thrown)
    requires IsSupabaseShaped(e) && !(e.kind.TypeErrorInstance? && Contains(MessageText(e), "fetch"))
    ensures e.code == Some("PGRST116") ==> Categorize(e).category == NotFound
    ensures e.code == Some("23505") ==> Categorize(e).category == Validation
    ensures e.code != Some("PGRST116") && e.code != Some("23505") && Contains(MessageText(e), "JWT") ==>
      Categorize(e) == AppError(Auth, "Authentication error", None)
  {
  }

  /** When no Supabase rule applies, the error is categorised as if it had neither `details` nor `hint`. */
  lemma SupabaseFallThrough(e: Thrown)
    requires IsSupabaseShaped(e) && SupabaseCategory(e).None?
    ensures Categorize(e) == Categorize(e.(detailsOrHint := false))
  {
  }

  /** A generic `Error` that is no other shape is categorised by its message, which it keeps. */
  lemma GenericErrorRules(e: Thrown)
    requires IsErrorInstance(e) && !IsSupabaseShaped(e) && e.category.None?
    requires !(e.kind.TypeErrorInstance? && Contains(MessageText(e), "fetch"))
    ensures Categorize(e) == AppError(MessageCategory(MessageText(e)), MessageText(e), None)
  {
  }

  /** `createError(category, message)` */
  function CreateError(category: Category, message: string): (r: AppError)
    ensures r.category == category && r.message == message && r.code.None?
  {
    AppError(category, message, None)
  }

  /** The object `createError` returns, when thrown. */
  function AsThrown(a: AppError): Thrown {
    Object(PlainObject, a.code, Some(a.message), false, Some(a.category))
  }

  /** A created error that is thrown is categorised as exactly itself. */
  lemma CreatedErrorRoundTrip(category: Category, message: string)
    ensures Categorize(AsThrown(CreateError(category, message))) == CreateError(category, message)
  {
  }

  /** The `errors` texts of the current dictionary. */
  datatype ErrorTexts = ErrorTexts(network: string, unauthorized: string, validation: string, notFound: string,
                                   permission: string, uploadFailed: string, locationDenied: string,
                                   locationUnavailable: string, locationTimeout: string, generic: string)

  /** `a || b` on strings */
  function Or(a: string, b: string): (r: string)
    ensures a != "" ==> r == a
    ensures a == "" ==> r == b
  {
    if a != "" then a else b
  }

  /** The geolocation message for the `code` of an error. */
  function LocationMessage(code: Option<string>, t: ErrorTexts): (r: string)
    ensures code == Some("1") ==> r == t.locationDenied
    ensures code == Some("3") ==> r == t.locationTimeout
    ensures code != Some("1") && code != Some("3") ==> r == t.locationUnavailable
  {
    if code == Some("1") then t.locationDenied
    else if code == Some("2") then t.locationUnavailable
    else if code == Some("3") then t.locationTimeout
    else t.locationUnavailable
  }

  /** `getUserMessage`: the dictionary text of the category, or its Portuguese fallback when the text is empty. */
  function UserMessage(a: AppError, t: ErrorTexts): (r: string)
    ensures a.category != Geolocation ==> r != ""
    ensures a.category == Validation && a.message != "" ==> r == a.message
    ensures a.category == Geolocation ==> r == LocationMessage(a.code, t)
  {
    match a.category
    case Network => Or(t.network, "Erro de conexão. Verifique sua internet.")
    case Auth => Or(t.unauthorized, "Sessão expirada. Faça login novamente.")
    case Validation => Or(a.message, Or(t.validation, "Dados inválidos."))
    case NotFound => Or(t.notFound, "Recurso não encontrado.")
    case Permission => Or(t.permission, "Você não tem permissão para esta ação.")
    case Storage => Or(t.uploadFailed, "Erro ao processar arquivo.")
    case Geolocation => LocationMessage(a.code, t)
    case _ => Or(t.generic, "Ocorreu um erro inesperado.")
  }

  /** The digits of a code name one of the three geolocation codes only for that code. */
  lemma DecimalOfCode(n: nat)
    ensures Decimal(n) == "1" <==> n == 1
    ensures Decimal(n) == "2" <==> n == 2
    ensures Decimal(n) == "3" <==> n == 3
  {
  }

  /** A geolocation error shows the denied, unavailable or timeout text by its code; any other code is unavailable. */
  lemma GeolocationMessages(geoCode: nat, code: Option<string>, message: Option<string>, detailsOrHint: bool,
                            category: Option<Category>, t: ErrorTexts)
    requires !detailsOrHint
    ensures var m := UserMessage(Categorize(Object(GeolocationInstance(geoCode), code, message, detailsOrHint, category)), t);
      && (geoCode == 1 ==> m == t.locationDenied)
      && (geoCode == 2 ==> m == t.locationUnavailable)
      && (geoCode == 3 ==> m == t.locationTimeout)
      && (geoCode != 1 && geoCode != 3 ==> m == t.locationUnavailable)
  {
    DecimalOfCode(geoCode);
  }

  datatype Severity = Info | Error

  /** The severity `showToast` picks. */
  function ToastSeverity(c: Category): (s: Severity)
    ensures s == Info <==> c == Validation || c == NotFound
  {
    match c
    case Auth => Error
    case Permission => Error
    case Validation => Info
    case NotFound => Info
    case Network => Error
    case Unknown => Error
    case _ => Error
  }

  /** `handle(error)`: the notice shown, as its severity and text. */
  function Handle(e: Thrown, t: ErrorTexts): (r: (Severity, string))
    ensures r.0 == ToastSeverity(Categorize(e).category)
    ensures r.1 == UserMessage(Categorize(e), t)
  {
    var a := Categorize(e);
    (ToastSeverity(a.category), UserMessage(a, t))
  }

  /** A thrown primitive is an unexpected error, shown with the generic text. */
  lemma HandlePrimitive(text: string, t: ErrorTexts)
    ensures Handle(Primitive(text), t) == (Error, Or(t.generic, "Ocorreu um erro inesperado."))
  {
  }

  /** A failed `fetch` is shown as a connection error. */
  lemma HandleFetchFailure(e: Thrown, t: ErrorTexts)
    requires e.Object? && e.kind.TypeErrorInstance? && Contains(MessageText(e), "fetch")
    ensures Handle(e, t) == (Error, Or(t.network, "Erro de conexão. Verifique sua internet."))
  {
  }

  /**
   * The Supabase rules as notices: a missing row is an informational
   * not-found, a duplicate is an informational "Duplicate entry", and a JWT
   * problem is an expired session.
   */
  lemma HandleSupabase(e: Thrown, t: ErrorTexts)
    requires IsSupabaseShaped(e) && !(e.kind.TypeErrorInstance? && Contains(MessageText(e), "fetch"))
    ensures e.code == Some("PGRST116") ==> Handle(e, t) == (Info, Or(t.notFound, "Recurso não encontrado."))
    ensures e.code == Some("23505") ==> Handle(e, t) == (Info, "Duplicate entry")
    ensures e.code != Some("PGRST116") && e.code != Some("23505") && Contains(MessageText(e), "JWT") ==>
      Handle(e, t) == (Error, Or(t.unauthorized, "Sessão expirada. Faça login novamente."))
  {
  }

  /** A geolocation error is shown as an error with the text for its code. */
  lemma HandleGeolocation(geoCode: nat, code: Option<string>, message: Option<string>, category: Option<Category>,
                          t: ErrorTexts)
    ensures var n := Handle(Object(GeolocationInstance(geoCode), code, message, false, category), t);
      && n.0 == Error
      && (geoCode == 1 ==> n.1 == t.locationDenied)
      && (geoCode == 3 ==> n.1 == t.locationTimeout)
      && (geoCode != 1 && geoCode != 3 ==> n.1 == t.locationUnavailable)
  {
    GeolocationMessages(geoCode, code, message, false, category, t);
  }

  /** Every notice except a geolocation one has a text, whatever the dictionary holds. */
  lemma HandleNeverSilent(e: Thrown, t: ErrorTexts)
    ensures Categorize(e).category != Geolocation ==> Handle(e, t).1 != ""
    ensures Handle(e, t).0 == Info ==> Categorize(e).category == Validation || Categorize(e).category == NotFound
  {
  }

  /** How an awaited promise settles. */
  datatype Settled<T> = Resolved(value: T) | Rejected(reason: Thrown)

  /** `handleAsync`: the value and no error, or no value and the categorised error. */
  function HandleAsync<T>(p: Settled<T>): (r: (Option<T>, Option<AppError>))
    ensures p.Resolved? <==> r.1.None?
    ensures p.Resolved? ==> r.0 == Some(p.value)
    ensures p.Rejected? ==> r.0.None? && r.1 == Some(Categorize(p.reason))
  {
    match p
    case Resolved(v) => (Some(v), None)
    case Rejected(e) => (None, Some(Categorize(e)))
  }
}
