/** Option, Result and the kinds of Python exceptions the repository manager raises. */
module Wrappers {

  datatype Option<+T> = None | Some(value: T)

  /** The exception kinds that reach a caller of the core. */
  datatype Error =
    | IOError(path: string)          // a document or blob that the backend does not hold
    | KeyError(key: string)          // `obj[key]` on a JSON object without that key
    | TypeError(what: string)        // a JSON value of the wrong kind, or a misused Python object
    | AttributeError(what: string)   // an attribute read on `None` or on a string
    | AssertionError(what: string)   // a failed `assert` in `Version.load`
    | ValueError(what: string)       // `list_dir` with an unknown kind
    | IntegrityError(what: string)   // a duplicate version id, rejected only by the corrected `add_version`

  datatype Result<+T> = Ok(value: T) | Err(error: Error) {
    predicate IsFailure() { Err? }
    function PropagateFailure<U>(): Result<U>
      requires Err?
    {
      Err(error)
    }
    function Extract(): T
      requires Ok?
    {
      value
    }
  }

  /** A Result without a value: what a Python procedure that returns nothing either does or raises. */
  datatype Outcome = Pass | Fail(error: Error) {
    predicate IsFailure() { Fail? }
    function PropagateFailure<U>(): Result<U>
      requires Fail?
    {
      Err(error)
    }
  }

  /**
   * What a Python generator yields before it stops: the items in order, and
   * Pass when it runs out or the exception that ended it. A consumer that
   * only reads the items sees them one by one, so an error it raises on an
   * item comes before the generator's own later error.
   */
  datatype Yields<+T> = Yields(items: seq<T>, end: Outcome)

  /** The items `a` followed by what `y` yields. */
  function Then<T>(a: seq<T>, y: Yields<T>): Yields<T> {
    Yields(a + y.items, y.end)
  }

  lemma ThenNil<T>(y: Yields<T>)
    ensures Then([], y) == y
  {
    assert [] + y.items == y.items;
  }

  /** Yielding in two steps is yielding the concatenation. */
  lemma ThenThen<T>(a: seq<T>, b: seq<T>, y: Yields<T>)
    ensures Then(a, Then(b, y)) == Then(a + b, y)
  {
    assert a + (b + y.items) == (a + b) + y.items;
  }

  /** The list `a` followed by whatever `r` yields, or `r`'s error. */
  function Prepend<T>(a: seq<T>, r: Result<seq<T>>): Result<seq<T>> {
    match r
    case Ok(b) => Ok(a + b)
    case Err(e) => Err(e)
  }

  lemma PrependNil<T>(r: Result<seq<T>>)
    ensures Prepend([], r) == r
  {
    if r.Ok? {
      assert [] + r.value == r.value;
    }
  }

  /** Prepending in two steps is prepending the concatenation. */
  lemma PrependPrepend<T>(a: seq<T>, b: seq<T>, r: Result<seq<T>>)
    ensures Prepend(a, Prepend(b, r)) == Prepend(a + b, r)
  {
    if r.Ok? {
      assert a + (b + r.value) == (a + b) + r.value;
    }
  }
}
