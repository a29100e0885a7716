/** Shared vocabulary: bytes, byte strings and the optional/fallible wrappers
    used by every other module. */
module Common {

  /** An unsigned 8-bit value, as the C `u8`. */
  newtype u8 = x: int | 0 <= x < 256

  /** The `string` of the base layer is a (pointer, size) view; the model keeps
      only the bytes it views. */
  type Str = seq<u8>

  datatype Option<+T> = None | Some(value: T)

  /** Faults the C code does not check for, made visible as an outcome. */
  datatype Fault = QueryOverflow

  datatype Result<+T> = Ok(value: T) | Err(fault: Fault)

  /** Number of elements of `s` satisfying `p`. */
  function CountIf<T>(s: seq<T>, p: T -> bool): (n: nat)
    ensures n <= |s|
  {
    if |s| == 0 then 0 else CountIf(s[..|s| - 1], p) + (if p(s[|s| - 1]) then 1 else 0)
  }

  /** The elements of `s` satisfying `p`, in order. */
  function Filter<T>(s: seq<T>, p: T -> bool): (r: seq<T>)
    ensures |r| == CountIf(s, p)
    ensures forall x :: x in r ==> x in s && p(x)
  {
    if |s| == 0 then [] else Filter(s[..|s| - 1], p) + (if p(s[|s| - 1]) then [s[|s| - 1]] else [])
  }

  lemma FilterSnoc<T>(s: seq<T>, x: T, p: T -> bool)
    ensures Filter(s + [x], p) == Filter(s, p) + (if p(x) then [x] else [])
  {
    assert (s + [x])[..|s + [x]| - 1] == s;
  }

  /** Filtering a prefix of `s` yields a prefix of the filtered `s`. */
  lemma {:induction false} FilterPrefix<T>(s: seq<T>, j: nat, p: T -> bool)
    requires j <= |s|
    ensures |Filter(s[..j], p)| <= |Filter(s, p)|
    ensures Filter(s[..j], p) == Filter(s, p)[..|Filter(s[..j], p)|]
  {
    if j == |s| {
      assert s[..j] == s;
    } else {
      var init := s[..|s| - 1];
      assert s[..j] == init[..j];
      FilterPrefix(init, j, p);
    }
  }
}
