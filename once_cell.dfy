/** `once_cell::sync::OnceCell`: a slot written at most once. */
module OnceCells {
  import opened Wrappers

  class OnceCell<T> {
    var value: Option<T>

    /** `OnceCell::new()`: empty. */
    constructor ()
      ensures value == None
    {
      value := None;
    }

    /** `set`: stores `v` only when the cell is still empty; otherwise hands `v` back. */
    method Set(v: T) returns (r: Result<(), T>)
      modifies this
      ensures old(value).None? ==> value == Some(v) && r == Ok(())
      ensures old(value).Some? ==> value == old(value) && r == Err(v)
    {
      if value.None? {
        value := Some(v);
        r := Ok(());
      } else {
        r := Err(v);
      }
    }

    /** `get().unwrap()`: panics on an empty cell, hence the precondition. */
    method Get() returns (v: T)
      requires value.Some?
      ensures v == value.value
    {
      v := value.value;
    }

    /** `get_or_init(f)`: the stored value; `init` is used only by the first call. */
    method GetOrInit(init: T) returns (v: T)
      modifies this
      ensures old(value).Some? ==> value == old(value) && v == old(value).value
      ensures old(value).None? ==> value == Some(init) && v == init
    {
      if value.None? {
        value := Some(init);
      }
      v := value.value;
    }
  }
}
