/** Small wrapper datatypes shared by every module of the model. */
module Wrappers {

  /** A value that may be absent: Python's `Optional[T]` (None or a value). */
  datatype Option<T> = None | Some(value: T) {

    /** The value, or `default` when absent. */
    function GetOr(default: T): T
    {
      match this
      case Some(v) => v
      case None => default
    }
  }

  /**
   * One field of a partial-update payload dumped with `exclude_unset=True`:
   * the field was not sent (Unset), was sent as JSON null (SetNull), or was
   * sent with a value (SetTo).
   */
  datatype Patch<T> = Unset | SetNull | SetTo(value: T) {

    /** True when the field appears in the dumped payload. */
    predicate IsSet()
    {
      !Unset?
    }

    /** The content of a nullable column after `setattr` with this field. */
    function ApplyNullable(current: Option<T>): (r: Option<T>)
      ensures Unset? ==> r == current
      ensures SetNull? ==> r == None
      ensures SetTo? ==> r == Some(value)
    {
      match this
      case Unset => current
      case SetNull => None
      case SetTo(v) => Some(v)
    }

    /**
     * The content of a NOT NULL column after `setattr` with this field;
     * None when the payload writes null into it, which the database
     * rejects at flush time with an integrity error.
     */
    function ApplyNotNull(current: T): (r: Option<T>)
      ensures Unset? ==> r == Some(current)
      ensures SetNull? ==> r == None
      ensures SetTo? ==> r == Some(value)
    {
      match this
      case Unset => Some(current)
      case SetNull => None
      case SetTo(v) => Some(v)
    }
  }

  /** Python truthiness of an optional string: present and non-empty. */
  predicate Truthy(s: Option<string>)
  {
    s.Some? && s.value != ""
  }

  /** A pydantic `max_length` on an optional string field. */
  predicate AtMost(o: Option<string>, n: nat)
  {
    o.Some? ==> |o.value| <= n
  }

  /** A pydantic `max_length` on an optional string field of an update payload. */
  predicate PatchAtMost(p: Patch<string>, n: nat)
  {
    p.SetTo? ==> |p.value| <= n
  }
}
