/** An error carried by a failed result: a code and a description,
    compared by value. */
module ResultErrors {
  datatype Error = Error(code: string, description: string)
}

/** `Result` and `Result<TValue>` of Core.Extensions. The C# classes keep
    a success flag, the errors (null on a success) and the value (its
    default on a failure); here the flag picks the constructor and only
    the meaningful field is stored. The accessors that throw on the wrong
    kind of result require the right kind. */
module CoreResults {
  import opened ResultErrors

  datatype Result = Ok | Err(reported: seq<Error>)
  {
    predicate IsSuccess() {
      Ok?
    }

    predicate IsFailure() {
      !IsSuccess()
    }

    /** Throws on a success. */
    function Errors(): seq<Error>
      requires IsFailure()
    {
      reported
    }
  }

  datatype ValueResult<T> = OkWith(held: T) | ErrWith(reported: seq<Error>)
  {
    predicate IsSuccess() {
      OkWith?
    }

    predicate IsFailure() {
      !IsSuccess()
    }

    /** Throws on a success. */
    function Errors(): seq<Error>
      requires IsFailure()
    {
      reported
    }

    /** Throws on a failure. */
    function Value(): T
      requires IsSuccess()
    {
      held
    }
  }

  function Success(): (r: Result)
    ensures r.IsSuccess() && !r.IsFailure()
  {
    Ok
  }

  function Fail(errors: seq<Error>): (r: Result)
    ensures r.IsFailure() && !r.IsSuccess() && r.Errors() == errors
  {
    Err(errors)
  }

  /** `Success<TValue>(value)`. */
  function SuccessWith<T>(value: T): (r: ValueResult<T>)
    ensures r.IsSuccess() && !r.IsFailure() && r.Value() == value
  {
    OkWith(value)
  }

  /** `Fail<TValue>(errors)`. */
  function FailWith<T>(errors: seq<Error>): (r: ValueResult<T>)
    ensures r.IsFailure() && !r.IsSuccess() && r.Errors() == errors
  {
    ErrWith(errors)
  }

  /** Every result is what one of the two factories returns: a success,
      or the failure carrying its own errors. */
  lemma ResultIsMade(r: Result)
    ensures r.IsFailure() == !r.IsSuccess()
    ensures r == if r.IsSuccess() then Success() else Fail(r.Errors())
  {
  }

  /** Likewise for results with a value: a success is `Success(r.Value())`. */
  lemma ValueResultIsMade<T>(r: ValueResult<T>)
    ensures r.IsFailure() == !r.IsSuccess()
    ensures r == if r.IsSuccess() then SuccessWith(r.Value()) else FailWith(r.Errors())
  {
  }
}

/** `Result` and `Result<TValue>` of Extensions: the same wrapper as the
    Core.Extensions one, with `Failure`, `Succeeded` and `Failed` as the
    names. It is defined on the same datatypes. */
module Results {
  import opened ResultErrors
  import CoreResults

  type Result = CoreResults.Result

  type ValueResult<T> = CoreResults.ValueResult<T>

  predicate Succeeded(r: Result) {
    r.IsSuccess()
  }

  predicate Failed(r: Result) {
    !Succeeded(r)
  }

  /** Throws on a success. */
  function Errors(r: Result): seq<Error>
    requires Failed(r)
  {
    r.Errors()
  }

  predicate SucceededWith<T>(r: ValueResult<T>) {
    r.IsSuccess()
  }

  predicate FailedWith<T>(r: ValueResult<T>) {
    !SucceededWith(r)
  }

  /** Throws on a success. */
  function ErrorsOf<T>(r: ValueResult<T>): seq<Error>
    requires FailedWith(r)
  {
    r.Errors()
  }

  /** Throws on a failure. */
  function Value<T>(r: ValueResult<T>): T
    requires SucceededWith(r)
  {
    r.Value()
  }

  function Success(): (r: Result)
    ensures Succeeded(r) && !Failed(r)
  {
    CoreResults.Success()
  }

  function Failure(errors: seq<Error>): (r: Result)
    ensures Failed(r) && !Succeeded(r) && Errors(r) == errors
  {
    CoreResults.Fail(errors)
  }

  /** `Success<TValue>(value)`. */
  function SuccessWith<T>(value: T): (r: ValueResult<T>)
    ensures SucceededWith(r) && !FailedWith(r) && Value(r) == value
  {
    CoreResults.SuccessWith(value)
  }

  /** `Failure<TValue>(errors)`. */
  function FailureWith<T>(errors: seq<Error>): (r: ValueResult<T>)
    ensures FailedWith(r) && !SucceededWith(r) && ErrorsOf(r) == errors
  {
    CoreResults.FailWith(errors)
  }

  lemma ResultIsMade(r: Result)
    ensures Failed(r) == !Succeeded(r)
    ensures r == if Succeeded(r) then Success() else Failure(Errors(r))
  {
    CoreResults.ResultIsMade(r);
  }

  lemma ValueResultIsMade<T>(r: ValueResult<T>)
    ensures FailedWith(r) == !SucceededWith(r)
    ensures r == if SucceededWith(r) then SuccessWith(Value(r)) else FailureWith(ErrorsOf(r))
  {
    CoreResults.ValueResultIsMade(r);
  }
}
