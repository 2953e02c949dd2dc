/** Small vocabulary shared by the model: an optional value, and the few
    JavaScript string conventions the reveal machinery relies on. */
module Base {

  /** `T | undefined`: `None` stands for JavaScript's `undefined`. */
  datatype Option<+T> = None | Some(value: T) {
    /** The `??` operator: the value, or `default` when undefined. */
    function GetOr(default: T): (v: T)
      ensures Some? ==> v == value
      ensures None? ==> v == default
    {
      match this
      case Some(v) => v
      case None => default
    }
  }

  function Min(a: int, b: int): (m: int)
    ensures m <= a && m <= b && (m == a || m == b)
  {
    if a <= b then a else b
  }

  function Max(a: int, b: int): (m: int)
    ensures a <= m && b <= m && (m == a || m == b)
  {
    if a <= b then b else a
  }

  /** JavaScript truthiness of an optional string: both `undefined` and the
      empty string are falsy, so `if (!docId)` treats them alike. */
  predicate IsSet(s: Option<string>): (b: bool)
    ensures b <==> s !in {None, Some("")}
  {
    s.Some? && s.value != ""
  }

  /** `s.startsWith(p)`. */
  predicate StartsWith(s: string, p: string): (b: bool)
    ensures b <==> exists rest :: s == p + rest
  {
    if |p| <= |s| && s[..|p|] == p then
      assert s == p + s[|p|..];
      true
    else
      false
  }

  /** `s.slice(0, end)` for an integer `end`: a negative end counts back
      from the end of the string, and an end past the length is cut to it. */
  function SliceTo<T>(s: seq<T>, end: int): (r: seq<T>)
    ensures r <= s
    ensures 0 <= end ==> |r| == Min(end, |s|)
    ensures end < 0 ==> |r| == Max(0, |s| + end)
  {
    if end < 0 then s[..Max(0, |s| + end)]
    else if end <= |s| then s[..end]
    else s
  }
}
