/** What the pages render from their state: the red error banner above a form, and the
    rule by which the shared submit `Button` is disabled. */
module Components {
  import opened Fetch

  /** What the red banner above a form shows. `Rows` is one row per array element
      (the login page); `Child` is a value handed to React as a single child. */
  datatype Banner = Hidden | Line(text: string) | Rows(children: seq<Item>) | Child(value: ErrorValue)

  /** The submit `Button` is disabled when asked to be or while it shows a spinner; a
      button that is neither stays usable. */
  function ButtonDisabled(disabled: bool, loading: bool): (r: bool)
    ensures loading ==> r
    ensures !disabled ==> (r <==> loading)
  {
    disabled || loading
  }
}
