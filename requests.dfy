/** What the request handlers read from a parsed JSON body, reduced to the
    distinctions their branches make: whether a field is present, whether
    it is a string, and whether JavaScript treats it as truthy. */
module Requests {

  datatype Option<T> = None | Some(value: T)

  /** One field of a parsed request body. A missing field and a JSON null
      are both Absent (both read as undefined-or-null and are falsy);
      OtherFalsy stands for false and 0, OtherTruthy for true, non-zero
      numbers, arrays and objects. */
  datatype Field = Absent | Str(s: string) | OtherTruthy | OtherFalsy

  /** JavaScript truthiness of a field value: the empty string is falsy. */
  predicate Truthy(f: Field)
  {
    match f
    case Absent => false
    case Str(s) => s != []
    case OtherTruthy => true
    case OtherFalsy => false
  }

  /** A field value that is a non-empty string. */
  predicate NonEmptyString(f: Field)
  {
    f.Str? && f.s != []
  }

  /** For a string the two tests agree; a truthy non-string is the only
      value that passes `!field` but is not a non-empty string. */
  lemma TruthyStrings(f: Field)
    ensures NonEmptyString(f) ==> Truthy(f)
    ensures Truthy(f) && !NonEmptyString(f) <==> f == OtherTruthy
  {
  }

  /** A parsed request body; Malformed when reading it throws: req.json()
      throws, or yields null, whose destructuring throws. */
  datatype Body<T> = Parsed(fields: T) | Malformed
}
