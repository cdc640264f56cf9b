/** The backend's records, the two error classes and the user-facing error
    message classifier. */
module ApiTypes {
  import opened Wrappers
  import opened Dates

  // ---------------------------------------------------------------- records

  datatype Role = Student | Teacher | Admin

  datatype ClassRoom = ClassRoom(id: string, name: string, course: int, groupName: string)

  /** A user as the API returns it. */
  datatype ApiUser = ApiUser(
    id: string,
    login: string,
    role: Role,
    firstName: string,
    lastName: string,
    middleName: Option<string>,
    classRoomId: Option<string>,
    classRoom: Option<ClassRoom>,
    createdAt: string,
    updatedAt: string)

  /** The body of a successful login or refresh. */
  datatype AuthResponse = AuthResponse(accessToken: string, refreshToken: string, expiresIn: int, user: ApiUser)

  datatype TeacherRef = TeacherRef(id: string, firstName: string, lastName: string, middleName: Option<string>)

  datatype SubjectListItem = SubjectListItem(
    id: string,
    name: string,
    classRoomId: string,
    teacherId: string,
    teacher: Option<TeacherRef>)

  /** A grade; `gradedAt` is the moment it was given, in local time. */
  datatype GradeItem = GradeItem(
    id: string,
    subjectId: string,
    studentId: string,
    createdById: string,
    value: int,
    comment: Option<string>,
    gradedAt: Instant)

  /** A lesson of the schedule; `startsAt` and `endsAt` in local time. */
  datatype LessonItem = LessonItem(
    id: string,
    startsAt: Instant,
    endsAt: Instant,
    room: Option<string>,
    subjectName: string,
    teacherId: string)

  // ----------------------------------------------------------------- errors

  /** The `message` field of the backend's error payload: one string, a list
      of strings, JSON `null`, or missing (a JSON body of another shape). */
  datatype MessageField = Text(text: string) | Lines(lines: seq<string>) | NullMessage | Missing

  /** The backend's error payload; fields a body did not carry are `None`. */
  datatype ErrorPayload = ErrorPayload(statusCode: Option<int>, message: MessageField, path: Option<string>)

  /** What an awaited call can throw. `OtherError` is any other `Error`
      instance (a JSON syntax error, a storage rejection); `NonError` is a
      thrown value that is not an `Error` at all. */
  datatype Thrown =
    | NetworkError(message: string)
    | RequestError(status: int, details: ErrorPayload, message: string)
    | OtherError(message: string)
    | NonError

  /** `Array.prototype.join(sep)` over strings. */
  function Join(parts: seq<string>, sep: string): (r: string)
    ensures |parts| == 0 ==> r == ""
    ensures |parts| == 1 ==> r == parts[0]
    ensures |parts| > 0 ==> |r| == TotalLength(parts) + (|parts| - 1) * |sep|
  {
    if |parts| == 0 then ""
    else if |parts| == 1 then parts[0]
    else parts[0] + sep + Join(parts[1..], sep)
  }

  function TotalLength(parts: seq<string>): nat {
    if |parts| == 0 then 0 else |parts[0]| + TotalLength(parts[1..])
  }

  /** The message an `ApiRequestError` is constructed with: the explicit
      message when one is passed (even an empty one), else the payload's
      message, a list joined with ", ". A missing payload message makes
      `Error`'s constructor store the empty string; a `null` one is turned
      into the text "null". */
  function RequestErrorMessage(details: ErrorPayload, explicit: Option<string>): (msg: string)
    ensures explicit.Some? ==> msg == explicit.value
    ensures explicit.None? && details.message.Text? ==> msg == details.message.text
    ensures explicit.None? && details.message.Lines? ==> msg == Join(details.message.lines, ", ")
    ensures explicit.None? && details.message.NullMessage? ==> msg == "null"
    ensures explicit.None? && details.message.Missing? ==> msg == ""
  {
    match explicit
    case Some(m) => m
    case None =>
      match details.message
      case Text(t) => t
      case Lines(ls) => Join(ls, ", ")
      case NullMessage => "null"
      case Missing => ""
  }

  /** `new ApiRequestError(status, details, message)`. */
  function NewRequestError(status: int, details: ErrorPayload, explicit: Option<string>): (e: Thrown)
    ensures e.RequestError? && e.status == status && e.details == details
    ensures e.message == RequestErrorMessage(details, explicit)
  {
    RequestError(status, details, RequestErrorMessage(details, explicit))
  }

  const DefaultFallback: string := "Неизвестная ошибка"
  const ConnectionProblem: string := "Проблема с подключением"
  const InvalidCredentials: string := "Неверный логин или пароль"
  const ServerError: string := "Ошибка сервера. Попробуйте позже"
  const RequestFailed: string := "Ошибка запроса"

  /** `getApiErrorMessage(error, fallback)`: the short text a screen shows.
      It is one of the fixed texts, the fallback, or the error's own
      message; only network and request errors are looked into. */
  function GetApiErrorMessage(err: Thrown, fallback: string): (r: string)
    ensures r in {ConnectionProblem, InvalidCredentials, ServerError, RequestFailed, fallback}
         || ((err.NetworkError? || err.RequestError?) && r == err.message && r != "")
    ensures !err.NetworkError? && !err.RequestError? ==> r == fallback
  {
    match err
    case NetworkError(m) => if m != "" then m else ConnectionProblem
    case RequestError(status, _, m) =>
      if status == 401 then InvalidCredentials
      else if status >= 500 then ServerError
      else if m != "" then m
      else RequestFailed
    case OtherError(_) => fallback
    case NonError => fallback
  }

  /** A network error shows its own message, or the connectivity hint when
      that message is empty. */
  lemma NetworkErrorMessage(m: string, fallback: string)
    ensures GetApiErrorMessage(NetworkError(m), fallback) == (if m == "" then ConnectionProblem else m)
  {
  }

  /** The classification of a request error depends on its status first:
      401 wins over everything, then any status of 500 or more; the
      error's own message matters only below that. */
  lemma RequestErrorClassification(status: int, details: ErrorPayload, m: string, fallback: string)
    ensures status == 401 ==> GetApiErrorMessage(RequestError(status, details, m), fallback) == InvalidCredentials
    ensures status != 401 && status >= 500 ==> GetApiErrorMessage(RequestError(status, details, m), fallback) == ServerError
    ensures status != 401 && status < 500 ==>
      GetApiErrorMessage(RequestError(status, details, m), fallback) == (if m == "" then RequestFailed else m)
  {
  }

  /** Anything that is neither a network nor a request error shows the
      fallback, "Неизвестная ошибка" when the caller gives none; with a
      non-empty fallback no error ever shows an empty text. */
  lemma ErrorMessageNeverEmpty(err: Thrown, fallback: string)
    ensures !err.NetworkError? && !err.RequestError? ==> GetApiErrorMessage(err, fallback) == fallback
    ensures !err.NetworkError? && !err.RequestError? ==> GetApiErrorMessage(err, DefaultFallback) == "Неизвестная ошибка"
    ensures fallback != "" ==> GetApiErrorMessage(err, fallback) != ""
    ensures GetApiErrorMessage(err, DefaultFallback) != ""
  {
  }

  /** A 401 always reads as bad credentials, whatever the payload said:
      the classifier ignores a 401 error's message. */
  lemma Unauthorized401IgnoresMessage(details: ErrorPayload, e1: Option<string>, e2: Option<string>, fallback: string)
    ensures GetApiErrorMessage(NewRequestError(401, details, e1), fallback)
         == GetApiErrorMessage(NewRequestError(401, details, e2), fallback)
  {
  }
}
