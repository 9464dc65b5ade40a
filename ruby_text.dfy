/**
 * The two pieces of Ruby string behaviour the middleware relies on:
 * how `nil` renders inside `Array#join` and string interpolation, and
 * `Array#join` itself.
 */
module RubyText {

  datatype Option<T> = None | Some(value: T)

  /** `nil.to_s` is the empty string; any present string renders as itself. */
  function Text(o: Option<string>): string
  {
    match o
    case None => ""
    case Some(s) => s
  }

  /** `parts.join(sep)`: the parts in order, with `sep` between neighbours. */
  function Join(parts: seq<string>, sep: string): string
  {
    if |parts| == 0 then ""
    else if |parts| == 1 then parts[0]
    else parts[0] + sep + Join(parts[1..], sep)
  }

  /** Appending one element to a non-empty array adds one separator and that element. */
  lemma {:induction false} JoinSnoc(parts: seq<string>, x: string, sep: string)
    requires parts != []
    ensures Join(parts + [x], sep) == Join(parts, sep) + sep + x
  {
    if |parts| == 1 {
      assert (parts + [x])[1..] == [x];
    } else {
      assert (parts + [x])[1..] == parts[1..] + [x];
      JoinSnoc(parts[1..], x, sep);
    }
  }
}
