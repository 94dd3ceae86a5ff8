/** Small value types shared by every module of the model. */
module Common {

  /** A value that a JavaScript caller may leave `undefined` or `null`. */
  datatype Option<+T> = None | Some(value: T) {
    function GetOr(default: T): T {
      match this
      case Some(v) => v
      case None => default
    }
  }

  /** Either a parsed value or the reason it was refused. */
  datatype Result<+T, +E> = Ok(value: T) | Err(error: E)

  /** The form fields an issue can be attached to. */
  datatype Field =
    | Username | Name | Email | Number | Website
    | CategoryId | LocationId | About
    | ProductImages            // the image list as a whole (its length)
    | ProductImageFile(index: nat)  // the file of the image fieldset at `index`

  /** JavaScript truthiness of a string: only the empty string is falsy. */
  predicate Truthy(s: string) {
    s != ""
  }

  /** JavaScript truthiness of an optional string (`undefined`/`null` are falsy). */
  predicate TruthyOpt(o: Option<string>) {
    o.Some? && Truthy(o.value)
  }

  /** The set of values of a sequence, positionally. */
  function Elements<T(==)>(s: seq<T>): (r: set<T>)
    ensures forall i :: 0 <= i < |s| ==> s[i] in r
    ensures forall x :: x in r ==> exists i :: 0 <= i < |s| && s[i] == x
  {
    set i | 0 <= i < |s| :: s[i]
  }

  /** No value occurs twice in `s`. */
  predicate Distinct<T(==)>(s: seq<T>) {
    forall i, j :: 0 <= i < j < |s| ==> s[i] != s[j]
  }
}
