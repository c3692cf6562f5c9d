/** Optional values, and the `<Show when={a && b}>` guard that the page and
    the cursor overlay both use to render only once two inputs are present. */
module Guards {

  datatype Option<+T> = None | Some(value: T)

  /** `a && b` in a Solid `Show` guard where both operands are objects or
      non-empty strings: the children are rendered, with both values, exactly
      when neither is null. */
  function ShowWhen<A, B>(a: Option<A>, b: Option<B>): (r: Option<(A, B)>)
    ensures r.Some? <==> a.Some? && b.Some?
    ensures r.Some? ==> r.value.0 == a.value && r.value.1 == b.value
  {
    match (a, b)
    case (Some(x), Some(y)) => Some((x, y))
    case _ => None
  }
}
