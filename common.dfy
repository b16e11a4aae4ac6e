/** Vocabulary shared by every module of the hospital backend: row ids,
    HTTP outcomes, the authenticated request context and the field maps that
    stand for a row's domain columns. */
module Common {

  /** Primary keys of every table: Django's auto-incremented integer ids. */
  type Id = int

  datatype Option<T> = None | Some(value: T)

  /** One key of a partial update: left out of the request body (`Keep`) or
      supplied with a value (`Set`). */
  datatype Update<T> = Keep | Set(value: T)

  function Apply<T>(u: Update<T>, current: T): (r: T)
    ensures u.Keep? ==> r == current
    ensures u.Set? ==> r == u.value
  {
    match u
    case Keep => current
    case Set(v) => v
  }

  /** The HTTP statuses the views answer with. `ServerError` stands for an
      exception no handler catches (Django then answers 500). */
  datatype Status = Ok | Created | BadRequest | Unauthorized | NotFound | ServerError {
    function Code(): (c: int)
      ensures 200 <= c < 600
      ensures (c < 300) == (this == Ok || this == Created)
    {
      match this
      case Ok => 200
      case Created => 201
      case BadRequest => 400
      case Unauthorized => 401
      case NotFound => 404
      case ServerError => 500
    }
  }

  datatype Result<T> = Success(value: T) | Failure(status: Status)

  /** A column value; `Null` is SQL NULL (also what an absent column holds). */
  datatype Value = Null | Text(text: string)

  /** The domain columns of a row (name, fees, notes, ...), by column name. */
  type Fields = map<string, Value>

  /** The value a row holds in column `c`. */
  function Column(f: Fields, c: string): Value
  {
    if c in f then f[c] else Null
  }

  /** A partial update (`partial=True`): supplied columns replace the stored
      ones, every other column keeps its value. */
  function Merge(current: Fields, supplied: Fields): (r: Fields)
    ensures r.Keys == current.Keys + supplied.Keys
    ensures forall c | c in supplied :: r[c] == supplied[c]
    ensures forall c | c in current && c !in supplied :: r[c] == current[c]
  {
    current + supplied
  }

  /** Supplying the same columns a second time changes nothing more. */
  lemma MergeIdempotent(current: Fields, supplied: Fields)
    ensures Merge(Merge(current, supplied), supplied) == Merge(current, supplied)
  {
    var once := Merge(current, supplied);
    var twice := Merge(once, supplied);
    assert twice.Keys == once.Keys;
    forall c | c in once ensures twice[c] == once[c] {
    }
  }

  /** A patch that supplies nothing leaves the columns as they are. */
  lemma MergeNothing(current: Fields)
    ensures Merge(current, map[]) == current
  {
  }

  /** `request.user` as the views see it: its id and `is_tenant_admin` flag. */
  datatype Caller = Caller(id: Id, isTenantAdmin: bool)

  /** What the middleware attaches to a request: the authenticated user and
      `request.tenant`, the tenant chosen by the request's host name. */
  datatype Ctx = Ctx(caller: Caller, tenant: Id)
}
