/** What a JSX child expression of the form `value && <Element/>` puts on
    screen. React renders nothing for `undefined`, `null` and `false`, but it
    renders a number, so a guard that is the number zero shows the text "0". */
module Render {
  import opened Wrappers

  datatype Node<+E> = Nothing | NumberText(n: real) | Shown(e: E)

  /** `n && el` where `n` is an optional number. */
  function NumberAnd<E>(n: Option<real>, el: E): (r: Node<E>)
    ensures r.Shown? <==> n.Some? && n.value != 0.0
    ensures r.NumberText? <==> n == Some(0.0)
    ensures r.Shown? ==> r.e == el
  {
    match n
    case None => Nothing
    case Some(v) => if v == 0.0 then NumberText(0.0) else Shown(el)
  }

  /** `b && el` where `b` is an optional boolean. */
  function FlagAnd<E>(b: Option<bool>, el: E): (r: Node<E>)
    ensures r.Shown? <==> b == Some(true)
    ensures !r.NumberText?
  {
    if b == Some(true) then Shown(el) else Nothing
  }
}
