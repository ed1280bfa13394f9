/**
 * Python values as the collector and the analyzer see them: a decoded JSON
 * document (or an ordinary dict built the same way), the exceptions the two
 * components can meet, and the few Python operators they apply to those
 * values (`key in x`, `x[key]`, `if x:`).
 */
module PyJson {

  /** A decoded JSON value. `Null` is Python's `None`; `Num` covers int and float. */
  datatype Json =
    | Null
    | Bool(b: bool)
    | Num(n: real)
    | Str(s: string)
    | Arr(items: seq<Json>)
    | Obj(fields: map<string, Json>)

  /** The exceptions the modelled code can raise. */
  datatype PyError = KeyError | TypeError | AttributeError

  /** A Python call either returns a value or raises. */
  datatype Outcome<+T> = Returned(value: T) | Raised(error: PyError)

  /** `if x:` — Python truthiness. */
  function Truthy(j: Json): (b: bool)
    ensures !b <==> j in {Null, Bool(false), Num(0.0), Str(""), Arr([]), Obj(map[])}
  {
    match j
    case Null => false
    case Bool(b) => b
    case Num(n) => n != 0.0
    case Str(s) => s != ""
    case Arr(items) => items != []
    case Obj(fields) => |fields| > 0
  }

  /** `needle in hay` for two strings: substring test. */
  predicate IsSubstring(needle: string, hay: string)
    decreases |hay|
  {
    needle <= hay || (hay != [] && IsSubstring(needle, hay[1..]))
  }

  /**
   * `key in container` for a string key: key membership on a dict, element
   * equality on a list, substring on a str; None, numbers and booleans are
   * not containers and raise TypeError.
   */
  function Contains(container: Json, key: string): (r: Outcome<bool>)
    ensures r.Raised? <==> !(container.Obj? || container.Arr? || container.Str?)
    ensures r.Raised? ==> r.error == TypeError
    ensures container.Obj? ==> r == Returned(key in container.fields)
    ensures container.Arr? ==> (r == Returned(true) <==> exists k :: 0 <= k < |container.items| && container.items[k] == Str(key))
    ensures container.Str? ==> (r == Returned(true) <==> Occurs(key, container.s))
  {
    match container
    case Obj(fields) => Returned(key in fields)
    case Arr(items) => Returned(Str(key) in items)
    case Str(s) => IsSubstringOccurs(key, s); Returned(IsSubstring(key, s))
    case _ => Raised(TypeError)
  }

  /** `needle` occurs in `hay` starting at position i. */
  predicate OccursAt(needle: string, hay: string, i: int)
  {
    0 <= i <= |hay| - |needle| && hay[i..i + |needle|] == needle
  }

  /** `needle` occurs in `hay` at some position. */
  ghost predicate Occurs(needle: string, hay: string)
  {
    exists i :: OccursAt(needle, hay, i)
  }

  /** The recursive substring test finds exactly the occurrences. */
  lemma {:induction false} IsSubstringOccurs(needle: string, hay: string)
    ensures IsSubstring(needle, hay) <==> Occurs(needle, hay)
    decreases |hay|
  {
    if needle <= hay {
      assert OccursAt(needle, hay, 0);
    } else if hay != [] {
      IsSubstringOccurs(needle, hay[1..]);
      if Occurs(needle, hay) {
        var i :| OccursAt(needle, hay, i);
        assert i != 0;
        assert OccursAt(needle, hay[1..], i - 1) by {
          assert hay[1..][i - 1..i - 1 + |needle|] == hay[i..i + |needle|];
        }
      }
      if IsSubstring(needle, hay[1..]) {
        var i :| OccursAt(needle, hay[1..], i);
        assert OccursAt(needle, hay, i + 1) by {
          assert hay[1..][i..i + |needle|] == hay[i + 1..i + 1 + |needle|];
        }
      }
    }
  }

  /**
   * `container[key]` for a string key: a dict lookup raises KeyError when the
   * key is missing; indexing a list or str with a str, or subscripting None,
   * a number or a boolean, raises TypeError.
   */
  function Subscript(container: Json, key: string): (r: Outcome<Json>)
    ensures r.Returned? <==> HasKey(container, key)
    ensures r.Returned? ==> r.value == container.fields[key]
    ensures r.Raised? ==> r.error == (if container.Obj? then KeyError else TypeError)
  {
    match container
    case Obj(fields) => if key in fields then Returned(fields[key]) else Raised(KeyError)
    case _ => Raised(TypeError)
  }

  /** Whether `container[key]` succeeds: `container` is a dict holding `key`. */
  predicate HasKey(container: Json, key: string)
  {
    container.Obj? && key in container.fields
  }
}
