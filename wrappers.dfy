/** Optional values and success/failure results shared by the page models. */
module Wrappers {

  /** A value that may be absent: JavaScript's `null`/`undefined` next to a value. */
  datatype Option<+T> = None | Some(value: T) {
    function GetOr(default: T): T {
      match this
      case Some(v) => v
      case None => default
    }
  }

  datatype Result<+R, +E> = Success(value: R) | Failure(error: E)

  /** JavaScript truthiness of an optional string: `null` and `""` are both falsy. */
  predicate Truthy(o: Option<string>) {
    o.Some? && o.value != ""
  }

  /** JavaScript truthiness of an optional number: `null` and `0` are both falsy. */
  predicate TruthyInt(o: Option<int>) {
    o.Some? && o.value != 0
  }

  /**
   * An optional numeric form field as written to the store: the empty string becomes `null`,
   * any other text is handed on (to `parseFloat`/`parseInt`, which this model does not parse).
   */
  function EmptyToNull(text: string): (r: Option<string>)
    ensures r.None? <==> text == ""
    ensures r.GetOr("") == text
  {
    if text == "" then None else Some(text)
  }

  /** Prefilling a form field from an optional number column (`x?.toString() || ""`) and writing the text back restores the column, unless it held "". */
  lemma EmptyToNullRestores(column: Option<string>)
    requires column != Some("")
    ensures EmptyToNull(column.GetOr("")) == column
  {
  }

  /** A user-visible notification: its title, its description and whether it is the destructive variant. */
  datatype Toast = Toast(title: string, description: string, destructive: bool)

  /** What the hosted store answers to a `.single()` row lookup: the row (if any) and an error code (if any). */
  datatype SingleReply<+T> = SingleReply(data: Option<T>, errorCode: Option<string>)
}
