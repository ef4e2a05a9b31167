/**
 * `JSON.stringify` and `JSON.parse` on plain objects, kept abstract: a stored
 * string is either the text `JSON.stringify` produced for some object, or a
 * text that `JSON.parse` rejects.
 */
module Json {
  import opened Types
  import opened Objects

  datatype Text =
    | Stringified(obj: Object)
    | Unparsable(chars: string)

  /** `JSON.parse(text)`: the object the text was made from, or a `SyntaxError`. */
  function Parse(t: Text): (r: Result<Object>)
    ensures r.Err? <==> t.Unparsable?
    ensures r.Err? ==> r.error == SyntaxError
  {
    match t
    case Stringified(o) => Ok(o)
    case Unparsable(_) => Err(SyntaxError)
  }

  /** `JSON.stringify(o)`; parsing the text gives `o` back. */
  function Stringify(o: Object): (t: Text)
    ensures Parse(t) == Ok(o)
  {
    Stringified(o)
  }

  /** Whether the string is truthy: `JSON.stringify` of an object is never empty. */
  predicate Truthy(t: Text) {
    t.Stringified? || t.chars != ""
  }

  /** Two objects serialise to the same text exactly when they are equal. */
  lemma StringifyInjective(a: Object, b: Object)
    ensures Stringify(a) == Stringify(b) <==> a == b
  {
  }
}
